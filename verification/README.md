# pgstore: models and proofs

`pgstore` implements four storage primitives (leases, an ordered index, a ledger and a
key-value table) as small transaction protocols over shared PostgreSQL rows, and a migration
runner that creates their tables.  This project models those protocols in Dafny and proves
what they promise, over every run, every interleaving of clients and every input.

`dafny verify dfyconfig.toml` checks everything.

## How the protocols are modelled

Each protocol is a state machine: a `State`, an `Action` datatype and a total function `Next`.
An action is one statement, one commit outcome or one local step of one thread; an action that
is not enabled changes nothing.  A theorem about every sequence of actions is therefore a
theorem about every interleaving of any number of clients.

A commit is acknowledged, aborted with a retryable code, or left without an answer.  A commit
without an answer stays in flight, *with its row lock*, until it lands or is dropped, possibly
long after its caller has returned.  Reads see committed rows only.  Fields marked as
bookkeeping (histories, counters, instants) are never read by a step.

The source is imperative, so the loops and methods are there as well: the `*Store` modules
hold classes whose methods (`Acquire`, `RenewLoop`, `Release`, `Close`, `Append`, `Put`,
`Create`, ...) run the statements and the retry loops in place, with arbitrary actions of
everyone else before each statement.  Their `Valid()` says that the state is the outcome of a
run of the machine, which is what makes the theorems about runs theorems about these methods.

| modules | component |
|---|---|
| `LeaseProtocol`, `LeaseSafety`, `LeaseTheorems`, `LeaseLiveness`, `LeaseMisses`, `LeaseLost`, `LeaseTightness`, `LeaseAnswers`, `LeaseStore` | renewable epoch leases |
| `OrderedTypes`, `OrderedWrites`, `OrderedSafety`, `OrderedTheorems`, `OrderedOutcomes`, `OrderedWriters`, `OrderedCauses`, `OrderedStore`, `OrderedRows` | OrderedIndex writes, record rows and the tailing reader |
| `Paging`, `Decimal`, `Base64Url`, `JsonText`, `Cursor`, `CursorText`, `Listing`, `ListingColumns` | ranked and due pages and their cursors |
| `LedgerProtocol`, `LedgerSafety`, `LedgerTheorems`, `LedgerStore` | the ledger |
| `KeyValueProtocol`, `KeyValueSafety`, `KeyValueTheorems`, `KeyValueStore` | the key-value table |
| `Template`, `Migrations`, `MigrationOwners` | migrations |

## Where the code and its texts differ

- `docs/plans/2026-09-01-transactional-epoch-leases-design.md:59` says a lease cannot assert
  ownership beyond the last expiry it observed.  The code samples the local clock twice
  (`internal/lease/lease.go:357`, then 160 or 336), so it can, by exactly the delay between the
  two readings less the head start of the proof.  `SafeTimeIsExact` gives the equivalence,
  `OverlapIsBounded` the bound on overlapping leases, `OverlapBoundIsTight` a run that attains it.
- The comment at `migrations.go:81-91` says a duplicate migration number would reach the
  not-monotonic branch.  It does not: a duplicate is skipped (`DuplicateIsSkipped`), and only a
  gap reaches the branch (`OnlyAGapStops`).
- A conflict that `resolveAppend` finds is called durable and never this caller's success
  (`internal/ledger/ledger.go:140-144`).  That holds unless the name was deleted during the
  call (`ErrorsAreDefinite`); after a delete both are possible (`RereadConflictAfterDelete`,
  `RereadConflictWithoutCommit`).
- A conflict that `resolvePut` finds does not by itself show that the put never took effect.  It
  does when the statement has left the wire, nobody deleted the key during the call, and the row
  found is at most at expected + 1 (`RereadConflictIsDefinite`); past that revision both are
  possible (`RereadConflictAfterOwnWrite`, `RereadConflictWithoutWrite`).  The error handed back
  for an absent or unchanged key shows it under the first two conditions (`CauseIsDefinite`), and
  neither can be dropped (`CauseBeforeLateWrite`, `CauseAfterDelete`).
- Success does not always mean that the call committed the record itself: a reread may find the
  identical record of a twin (`TwinsBothSucceed`, `TwinsBothCreate`).  It does mean so when the
  commit was acknowledged, and otherwise a twin that asked for the same committed it
  (`AcknowledgedSuccessIsOwn`, `OtherSuccessIsATwins`, `TwinCreatorsAreEqual`, `OtherCreatedIsATwins`).
- Renewal keeps a lease through failed rounds only as far as its time to live reaches.  That k
  rounds in a row may end without a renewed row is safe if and only if
  (k + 1)(renewInterval + 2d) + 2d is less than the TTL, where d bounds a proof and the lateness of
  a timer (`CoverIsExact`).  The last 2d are there because every renewal and every reread runs under
  a context that ends at the safe time (`internal/lease/lease.go:319-323`), which can be d before
  the stored expiry, while the last proof may take d.

## Model

| member | source | states |
|---|---|---|
| LeaseTheorems.MutualExclusion | internal/lease/lease.go:105-166 | in every run, two leases on the name are never open and inside safeUntil at once when neither's clock-sampling delay exceeds the head start of its proof |
| LeaseTheorems.OverlapIsBounded | internal/lease/lease.go:284-358 | two leases that both hold at two instants of a run: the instants are less than the earlier lease's excess (sampling delay minus head start) apart |
| LeaseTheorems.OverlapIsInsideExcess | internal/lease/lease.go:105-166 | holders have different epochs, and the later one opened less than the earlier one's excess ago |
| LeaseTightness.OverlapBoundIsTight | internal/lease/lease.go:157-166 | for every delay d > 0 a run whose overlap lasts one unit less than the excess d: the bound cannot be improved |
| LeaseTheorems.SafeTimeIsExact | internal/lease/lease.go:356-358 | safeUntil is the proved expiry plus the excess, and stays within the expiry if and only if the delay is at most the head start |
| LeaseTheorems.LeaseIsItsOwnGrant | internal/lease/lease.go:145-189 | a returned lease's epoch was committed by that very call, also when the acknowledgement was lost, and the call committed no other epoch |
| LeaseTheorems.GrantsAreAppended | internal/lease/lease.go:140-151 | epochs are handed out in commit order: each step leaves the grants as they are, clears the last one, or appends the next epoch |
| LeaseTheorems.EpochsNeverChangeHands | internal/lease/lease.go:127-148 | over any run an epoch keeps the holder that committed it |
| LeaseTheorems.RowAccounting | migrations/0002_leases.sql:1-8 | epoch equals the number of committed grants, revision the number of all commits, and holder is set exactly when expiry is |
| LeaseTheorems.RowIsFenced | internal/lease/lease.go:80-99 | every change of the row is one commit of its lock owner: the next epoch, or a renewal or clearing by the holder of the current one |
| LeaseTheorems.SupersededLeaseIsPowerless | internal/lease/lease.go:80-99 | a lease whose epoch was superseded never changes the row again |
| LeaseTheorems.LeaseIsStableOverRuns | internal/lease/lease.go:191-206 | a lease keeps its epoch and opening instant over any run, closed Lost and released stay set, and time does not run back |
| LeaseTheorems.LostClosesOnce | internal/lease/lease.go:276-278 | Lost is closed exactly once when it is closed, in every run |
| LeaseTheorems.QuiescentLeaseIsLost | internal/lease/lease.go:217-339 | once Release and Close are idle and the loop has ended or the lease is released or stopped, Lost is closed |
| LeaseTheorems.ClearedAfterLost | internal/lease/lease.go:90-103 | the row loses its holder only by the commit of a lease whose Lost is already closed |
| LeaseTheorems.ReleaseIsRetryableUntilComplete | internal/lease/lease.go:224-254 | a completed Release changes nothing any more, an incomplete one can start its clearing again |
| LeaseAnswers.CompletedReleaseHoldsNothing | internal/lease/lease.go:217-274 | over every run, the action that completes a release leaves a row that no longer carries its epoch and holder unexpired: cleared, passed on, or read as expired |
| LeaseAnswers.RefusalHasCause | internal/lease/lease.go:133-189 | over every run, a refusal naming epoch e was given at an instant at which the row of epoch e had an unexpired holder, and the exhausted one when it had none and epoch 2^63 - 1 |
| LeaseLiveness.RenewalKeepsLeaseAlive | internal/lease/lease.go:284-339 | with proofs and timer lateness of at most d, rereads that fail only once their deadline at the safe time has come, at most k rounds in a row that end without a renewed row (failed, lost, dropped or late renewals), and a truncated TTL above (k+1)(renewInterval + 2d) + 2d, Lost closes only through Release or Close |
| LeaseMisses.CoverIsExact | internal/lease/lease.go:319-338 | that bound is exact: no such run loses its lease if and only if the TTL exceeds it, for every TTL in whole milliseconds, interval, d and k |
| LeaseMisses.LessIsTooLittle | internal/lease/lease.go:302-338 | for every TTL at or below the bound, a timely run with at most k misses in a row that loses its lease unasked, to the expiry timer or to the deadline of a round |
| LeaseMisses.OneMissMayLose | internal/lease/lease.go:319-338 | for every d: a TTL above renewInterval + 4d, at most one missed round, and the lease is lost unasked |
| LeaseMisses.OneMissTooMany | internal/lease/lease.go:284-339 | for every d and k a setting that survives k misses in a row and not k + 1 |
| LeaseMisses.FailedRereadLoses | internal/lease/lease.go:322-330 | for every setting that covers k + 1 rounds, a timely run without a miss in which one reread fails inside the safe time, and the lease is lost unasked |
| LeaseLost.LoopWindsDown | internal/lease/lease.go:284-334 | from the safe time on no step of the loop changes the row or proves anything: each closes Lost, adopts a proof that was answered in time, or is one of at most five that lead there |
| LeaseLost.ProofIsOutlived | internal/lease/lease.go:105-166 | the proof of a lease with an open Lost ran out before any later epoch was opened |
| LeaseLost.OpenOverlapIsBounded | internal/lease/lease.go:215-339 | when Lost closes less than d after the safe time (or the opening), two leases have both Lost open for less than d, or less than the earlier one's excess plus d |
| LeaseLost.OpenOverlapIsBrief | internal/lease/lease.go:215-339 | under the same promptness, and with no excess, two leases have both Lost open for less than d, whichever came first |
| LeaseStore.Store.Acquire | internal/lease/lease.go:105-189 | a lease is returned exactly when one exists, and it is the committed grant of this call; a plain failure has its cause; left alone the call succeeds exactly on a row that nobody holds below the last epoch, and writes the next epoch, its own token, an expiry of now plus the TTL in whole milliseconds and the next revision |
| LeaseStore.Store.LockAndCheck | internal/lease/lease.go:126-146 | left alone the locking read refuses exactly a live holder, by its epoch, and an exhausted epoch, and else takes the row |
| LeaseStore.Store.CommitWrite | internal/lease/lease.go:145-154 | only a commit acknowledged before the deadline proves, and it stores the staged row; every other outcome leaves the thread unproven |
| LeaseStore.Store.ReadProof | internal/lease/lease.go:168-354 | within its deadline the reread proves exactly a row that carries this epoch and holder unexpired, with the expiry and instant it read; else it refuses the acquire by the epoch found, or ends the loop with Lost handled |
| LeaseStore.Store.AdoptProof | internal/lease/lease.go:157-166 | a proof opens the lease or extends it; without delay safeUntil is its local start plus the validity read, and a renewal without time left ends the loop |
| LeaseStore.Store.RenewRow | internal/lease/lease.go:69-88 | left alone before the safe time, exactly a row still held is renewed: expiry now plus TTL, revision one up, epoch and holder kept; any other row is left as it is |
| LeaseStore.Store.Wait | internal/lease/lease.go:298-317 | the chosen case of the select is taken exactly when it is ready: stopped, cancelled, past the safe time, or renewInterval after the wait began |
| LeaseStore.Store.EnterRound | internal/lease/lease.go:286-297 | a round is entered exactly when the lease is not released and its safe time has not come |
| LeaseStore.Store.RenewLoop | internal/lease/lease.go:284-339 | whenever the loop ends, the lease is unregistered and lost, or someone else is about to close Lost; n undisturbed rounds renew the row n times and leave the lease its whole TTL |
| LeaseStore.Store.Release | internal/lease/lease.go:217-254 | nil exactly when complete; Lost closed; an already complete release does no work; success leaves a row that the lease does not hold, an error has its cause and stays retryable; left alone it sets holder and expiry to NULL and counts the revision of exactly the row of its epoch and holder |
| LeaseStore.Store.ResolveRelease | internal/lease/lease.go:256-274 | complete exactly when the row could be read and is no longer owned and live |
| LeaseStore.Store.CopyLeases | internal/lease/lease.go:374-379 | the copy lists exactly the registered leases of the store, each once |
| LeaseStore.Store.Close | internal/lease/lease.go:372-384 | every lease registered at the copy, which follows the end of the context, is stopped and lost when it returns, whatever the others do before each of its steps; of itself it touches no other lease |
| OrderedTheorems.OrdersAreExactlyTheCounter | internal/orderedindex/orderedindex.go:114-175 | in every run the committed orders of a scope are exactly 1 to next_order, each carried by one identity |
| OrderedTheorems.PageIsContiguous | internal/orderedquery/orderedquery.go:30-35 | element i of a ListOrdered page after `after` is the record accepted at place after + i + 1 |
| OrderedTheorems.TailSeesAcceptanceOrder | internal/orderedindex/orderedindex.go:329-358 | a reader that keeps its place over empty pages is delivered the acceptance order, each record once, with no late commit missed |
| OrderedTheorems.PageReachesTheCounter | internal/orderedindex/orderedindex.go:345-357 | a page below its limit ends at the counter, so nothing committed is left behind |
| OrderedTheorems.EmptyPageRewindsNextAfterOrder | internal/orderedindex/orderedindex.go:353-356 | a reader that follows NextAfterOrder past an empty page is sent back to the first accepted record |
| OrderedTheorems.OutcomesAreVersions | internal/orderedindex/orderedindex.go:177-327 | a record returned by any call with revision r is, then and ever after, the r-th committed version of its identity |
| OrderedTheorems.StoredRecordsAreVersions | internal/orderedindex/orderedindex.go:446-455 | the same for every record that Get or a list reads |
| OrderedTheorems.VersionsAdvanceByOne | internal/orderedindex/orderedindex.go:209-327 | revisions advance by one, identity, ranking scope and order stay, a tombstone keeps the value and leaves every view, and nothing follows it |
| OrderedOutcomes.ErrorsAreDefinite | internal/orderedindex/orderedindex.go:90-111 | after any outcome but success and ambiguity, at no instant of the run, before or after the answer, does a transaction of the call change the tables |
| OrderedTheorems.HistoryGrows | internal/orderedindex/orderedindex.go:114-175 | acceptance and version histories of an earlier state are prefixes of those of a later one |
| OrderedWriters.OutcomesAreAsAsked | internal/orderedindex/orderedindex.go:162-255 | in every run what a call stages, looks for or returns as its success is what it asked for |
| OrderedWriters.OneCommitPerCall | internal/orderedindex/orderedindex.go:90-111 | over all its attempts, and after its answer, one call commits at most once |
| OrderedWriters.OneCreateCommits | internal/orderedindex/orderedindex.go:128-143 | no two creates of one identity are ever committed |
| OrderedWriters.AcknowledgedCommits | internal/orderedindex/orderedindex.go:168-174 | an acknowledged commit is the call's own |
| OrderedCauses.AnswerHasCause | internal/orderedindex/orderedindex.go:114-327 | over every run each answer was true when given: a conflict with revision r found the live record at r other than expected, exhausted only at 2^64 - 1, and not found, deleted, existing and invalid likewise; a failure is a failed statement, ambiguity a reread without the exact post-state |
| OrderedCauses.CountersFit | internal/orderedindex/orderedindex.go:144-166 | in every run all counters and staged orders fit uint64 |
| OrderedWriters.TwinCreatorsAreEqual | internal/orderedindex/orderedindex.go:546-569 | two calls both told that they created one identity asked for the same and were given the same record, and at most one of them committed it or was acknowledged |
| OrderedWriters.OtherCreatedIsATwins | internal/orderedindex/orderedindex.go:546-554 | created without an own commit comes from a reread, and from the commit of another call with the same request |
| OrderedWriters.OtherMutationIsATwins | internal/orderedindex/orderedindex.go:555-563 | an update or delete that succeeds without an own commit returns another call's commit |
| OrderedTheorems.TwinsBothCreate | internal/orderedindex/orderedindex.go:546-569 | a run in which two callers are both told created though one record was committed |
| OrderedStore.Store.Create | internal/orderedindex/orderedindex.go:74-112 | a created record is exactly what was asked for at revision 1, a created or existing record is a committed version, and the loop always answers; left alone it creates, at the counter plus one, exactly when the request is valid, the identity absent and the counter below the ceiling, and else says which of these failed and changes nothing |
| OrderedStore.Store.Mutate | internal/orderedindex/orderedindex.go:177-287 | a returned record is the requested update or tombstone at expected + 1 (or, for Delete, a tombstone found), and a committed version; left alone it writes exactly when the live record has the expected revision below the ceiling and the request is valid, and else says which of these failed and changes nothing |
| OrderedStore.Store.Attempts | internal/orderedindex/orderedindex.go:90-111 | at most four attempts, a retryable error is answered only after the last, every failure has its cause, and the end of the loop is never reached |
| OrderedStore.Store.ResolveOutcome | internal/orderedindex/orderedindex.go:546-569 | the reread answers success exactly when it can read the exact post-state, and else ambiguous |
| OrderedRows.ScanInvertsStore | internal/orderedindex/orderedindex.go:457-532 | a stored record is scanned back unchanged: nil and empty values stay apart, the full uint64 range survives |
| OrderedRows.ScanAcceptsOnlyStoredForms | internal/orderedindex/orderedindex.go:457-511 | an accepted row is the row its record would be stored as, but for the ignored value bytes beside a nil flag |
| OrderedRows.ScanRecords | internal/orderedindex/orderedindex.go:489-503 | all rows are scanned in order, or none: exactly when no row and no connection fails |
| Decimal.ParseUintIsExact | internal/orderedindex/orderedindex.go:505-511 | a text is accepted as n exactly when n fits uint64 and the text is its canonical decimal |
| Decimal.ParseUintAccepts | internal/orderedindex/orderedindex.go:505-511 | the accepted texts are exactly the digit strings without a superfluous zero whose value fits uint64 |
| Paging.KeyNamesItsRow | migrations/0003_ordered_index.sql:22-38 | a tuple of a view names exactly one stored row, because of the primary key |
| Paging.PageIsFront | internal/orderedindex/orderedindex.go:392-399 | a page is the front of the sorted rest of the view, and the cursor is present exactly when more remains |
| Paging.RestRemains | internal/orderedquery/orderedquery.go:38-59 | the keyset bound of a page's last record selects exactly the rest of the sorted view |
| Paging.WalkAdvances | internal/orderedquery/orderedquery.go:38-59 | whatever happens to the table between pages, positions strictly advance |
| Paging.StableRecordIsReturnedOnce | internal/orderedindex/orderedindex.go:360-439 | a record that keeps its tuple during a completed walk is returned exactly once, with any limits and any other writes |
| Paging.StaticWalkIsSortedView | internal/orderedindex/orderedindex.go:360-439 | on an unchanging table any walk collects a prefix of filter-and-sort, a completed one all of it |
| Paging.StaticWalkEnds | internal/orderedindex/orderedindex.go:392-399 | more page requests than remaining records complete the walk |
| Paging.SortIsUnique | internal/orderedquery/orderedquery.go:38-59 | the order of a view leaves one way to sort its rows |
| Listing.TokenWalkIsWalk | internal/orderedindex/orderedindex.go:376-438 | handing tokens back is the same walk as keeping positions: nothing is lost or confused in a token |
| Listing.CallerSeesSortedView | internal/orderedindex/orderedindex.go:360-439 | a caller walking by tokens over an unchanging table collects exactly the sorted view and stops |
| ListingColumns.CallerSeesOrder | internal/orderedquery/orderedquery.go:38-59 | in the columns of the records collected: ranks do not increase, or due times do not decrease, and equal ones are ordered by stable key and then scope at the first differing byte, downwards in ranked and upwards in due listings |
| ListingColumns.CallerSeesExactly | internal/orderedquery/orderedquery.go:38-59 | a stored record is collected, once, exactly when it is live, of the namespace, and ranked in the scope or due at or before the bound |
| ListingColumns.CallerCollects | internal/orderedindex/orderedindex.go:360-439 | more page requests than records, with any limits, do complete such a walk |
| ListingColumns.WalkGoesOneWay | internal/orderedquery/orderedquery.go:38-59 | whatever happens to the table between pages, positions, stable keys and scopes go one way, downwards in ranked and upwards in due listings |
| Listing.CallerSeesStableRecordDuringRun | internal/orderedindex/orderedindex.go:360-439 | the same caller, during any interleaving of Create, Update and Delete calls, gets every record that keeps its tuple exactly once |
| Listing.ShortNamesAreCarried | internal/orderedindex/orderedindex.go:25-28 | names of at most 234 bytes together always fit a cursor, whatever must be escaped in them |
| Cursor.RankedRoundTrip | internal/orderedindex/orderedindex.go:619-647 | an emitted ranked cursor within the ceiling decodes under its query to its position |
| Cursor.DueRoundTrip | internal/orderedindex/orderedindex.go:622-663 | an emitted due cursor within the ceiling decodes under its query to its position |
| Cursor.EmittedCursorDecodesIff | internal/orderedindex/orderedindex.go:625-671 | an emitted cursor decodes if and only if its payload is at most 3072 bytes |
| Cursor.AcceptedIsCanonical | internal/orderedindex/orderedindex.go:664-708 | an accepted token, line breaks aside, is the canonical encoding of the envelope it yields |
| Cursor.RankedCursorIsBound | internal/orderedindex/orderedindex.go:632-647 | a ranked position is accepted only from the cursor printed for that very query and position |
| Cursor.DueCursorIsBound | internal/orderedindex/orderedindex.go:648-663 | a due position is accepted only from the cursor printed for that very query and position |
| Cursor.CursorsDoNotTravel | internal/orderedindex/orderedindex.go:632-663 | a ranked cursor is refused, as a query mismatch, for any other namespace or scope and, as the wrong kind, by every due query |
| Cursor.DueCursorsDoNotTravel | internal/orderedindex/orderedindex.go:632-663 | a due cursor is refused, as a query mismatch, for any other namespace or bound and, as the wrong kind, by every ranked query |
| Cursor.ForeignEnvelopes | internal/orderedindex/orderedindex.go:676-687 | an envelope of another version is refused as that, one of the other kind as the wrong kind, and one of no known kind as malformed |
| CursorText.RankedCursorText | internal/orderedindex/orderedindex.go:598-621 | the text of a ranked cursor of plain names: {"v":1,"k":"ranked","n":..,"s":..,"p":..,"x":..,"o":..} in base64url |
| CursorText.DueCursorText | internal/orderedindex/orderedindex.go:598-624 | the text of a due cursor of plain names: {"v":1,"k":"due","n":..,"b":..,"p":..,"x":..,"o":..} in base64url |
| Cursor.PrintLength | internal/orderedindex/orderedindex.go:598-631 | a payload is at most 93 bytes and six bytes for each byte of its strings |
| Base64Url.RoundTrip | internal/orderedindex/orderedindex.go:630-668 | decoding an unpadded base64url encoding (sections 3.2 and 5 of RFC 4648) gives the bytes back |
| Base64Url.EncodesSixBits | internal/orderedindex/orderedindex.go:630 | symbol i of an encoding is the entry of the table of section 5 of RFC 4648 at the six bits from bit 6i on |
| Base64Url.AcceptedIsCanonical | internal/orderedindex/orderedindex.go:668-671 | the strict decoder (zero pad bits, section 3.5 of RFC 4648) accepts only canonical encodings, CR and LF aside |
| Base64Url.CeilingsAgree | internal/orderedindex/orderedindex.go:25-28 | an encoding is at most 4096 bytes exactly when its payload is at most 3072 |
| JsonText.StringRoundTrip | internal/orderedindex/orderedindex.go:625-631 | a string printed with the escapes of section 7 of RFC 8259 is parsed back, invalid bytes replaced |
| JsonText.AsciiForms | internal/orderedindex/orderedindex.go:625-631 | the exact form in which each ASCII character is printed, HTML characters included |
| JsonText.SanitizeFixesExactlyValid | internal/orderedindex/orderedindex.go:625-631 | the replacement changes nothing exactly for valid UTF-8, so the string round trip holds exactly there |
| LedgerTheorems.RecordsAreExactlyTheTip | migrations/0001_ledger_kv.sql:1-11 | through any mix of appends, failures, retries and cascading deletes, stored sequences of a name are exactly 1 to its tip |
| LedgerTheorems.LedgerRefinesLog | internal/ledger/ledger.go:88-122 | each action leaves the log of a name, empties it by a delete, or appends the payload of a call whose expected was its length |
| LedgerTheorems.OneCommitPerCall | internal/ledger/ledger.go:57-85 | over its four attempts one Append commits at most one record |
| LedgerTheorems.SuccessWasStored | internal/ledger/ledger.go:59-65 | a nil error: at the instant of the answer the log held the payload at expected + 1 |
| LedgerTheorems.SuccessStays | internal/ledger/ledger.go:132-138 | without deletes of the name, the payload of a successful append is at its place in the log from then on |
| LedgerTheorems.AnswerHasCause | internal/ledger/ledger.go:88-151 | over every run each answer was true when given: a conflict found another tip than expected, a conflict of the reread another payload at expected + 1, a success of the reread this payload there; ambiguity comes from a reread only, a failure never |
| LedgerTheorems.ErrorsAreDefinite | internal/ledger/ledger.go:66-151 | after any error but the ambiguous one the call has not committed and never will; only a reread conflict needs that the name was not deleted during the call |
| LedgerTheorems.LogGrows | internal/ledger/ledger.go:88-122 | without a delete of the name an earlier log is a prefix of a later one |
| LedgerTheorems.RereadConflictAfterDelete | internal/ledger/ledger.go:132-151 | a run with a delete during the call in which the conflict of the reread follows a committed append |
| LedgerTheorems.RereadConflictWithoutCommit | internal/ledger/ledger.go:132-151 | another run with a delete during the call and the same conflict, in which the call has not committed |
| LedgerTheorems.AmbiguousGoesBothWays | internal/ledger/ledger.go:145-150 | the same ambiguous answer in a run that committed and in one that did not |
| LedgerTheorems.AcknowledgedSuccessIsOwn | internal/ledger/ledger.go:115-121 | success that needed no reread means that the call itself committed the record |
| LedgerTheorems.OtherSuccessIsATwins | internal/ledger/ledger.go:136-139 | success without an own commit comes from a reread, and from another call's commit of the same payload at the same place |
| LedgerTheorems.TwinsBothSucceed | internal/ledger/ledger.go:136-138 | a run in which a caller is told of success by a twin's identical record |
| LedgerStore.Store.AppendOnce | internal/ledger/ledger.go:88-122 | the attempt ends stored, in conflict, unknown, or with an error of a transaction that has committed nothing, and every error has its cause; left alone it stores exactly when the tip is the expected one below the ceiling, and is in conflict exactly when it is another |
| LedgerStore.Store.Attempts | internal/ledger/ledger.go:57-86 | a retryable error is answered only after four attempts, and a failure means a failed statement, a scope row owned by another or the ceiling |
| LedgerStore.Store.Append | internal/ledger/ledger.go:48-86 | success means the payload is stored at expected + 1, a definite error without a delete means nothing of the call is or can be stored, every failure has its cause, and the panic is unreachable; left alone it is compare-and-append: appended exactly when the tip is the expected one below the ceiling, the log then being the old one and the payload, conflict exactly when the tip is another, and nothing changed unless appended |
| LedgerStore.Store.Resolve | internal/ledger/ledger.go:132-151 | success only with the exact payload at expected + 1, ambiguous whenever the record is absent or unreadable |
| LedgerStore.Store.Delete | internal/ledger/ledger.go:204-236 | nil means the log of the name was empty at an instant of the call, the failed statement's error that the scope was still there at the read; left alone the scope is gone, and any other answer follows a failed or waiting statement; no other log changes |
| LedgerStore.ResultSetIsSuffix | internal/ledger/ledger.go:165 | the rows of the read statement are the log from the given sequence on, without gap |
| LedgerStore.Read | internal/ledger/ledger.go:153-182 | a cursor over exactly the log suffix (a start below 1 counts as 1), or none when a fetch fails |
| LedgerStore.Cursor.Next | internal/ledger/ledger.go:252-267 | yields the remaining records one by one and then EOF forever |
| KeyValueTheorems.RevisionsAreConsecutive | internal/kv/kv.go:78-90 | between deletes the revisions of a key are 1, 2, 3 and so on, and the row is the last version |
| KeyValueTheorems.OneWriterPerRevision | internal/kv/kv.go:78-90 | between deletes a later write of a key has a greater revision: no revision has two writers |
| KeyValueTheorems.OneWritePerCall | internal/kv/kv.go:59-76 | one Put writes at most once, also when its statement runs after the call has returned |
| KeyValueTheorems.SuccessWasHeld | internal/kv/kv.go:59-196 | Put returning r: r is expected + 1, and at an instant during the call the key held exactly the value at r, reread included |
| KeyValueTheorems.AnsweredRefusalIsDefinite | internal/kv/kv.go:68-71 | a conflict that needed no reread means the call has not written and never will |
| KeyValueTheorems.RefusalHadCause | internal/kv/kv.go:68-90 | over every run a conflict that needed no reread was given while the key was not at the expected revision |
| KeyValueTheorems.RereadHadCause | internal/kv/kv.go:151-196 | over every run each answer of a reread was true at the instant of the read |
| KeyValueTheorems.CauseIsDefinite | internal/kv/kv.go:180-191 | the original error after a reread is definite when the statement has left the wire and the key was not deleted during the call |
| KeyValueTheorems.CauseBeforeLateWrite | internal/kv/kv.go:189-191 | a run without deletes that returns the original error while the statement is in flight, and in which the write follows the answer |
| KeyValueTheorems.CauseAfterDelete | internal/kv/kv.go:158-170 | a run whose call has written, is off the wire, and whose key was deleted during the call: the reread returns the original error |
| KeyValueTheorems.RereadConflictIsDefinite | internal/kv/kv.go:180-194 | a reread conflict is definite when the statement has left the wire, the key was not deleted during the call, and the row found is at most at expected + 1 |
| KeyValueTheorems.RereadConflictAfterOwnWrite | internal/kv/kv.go:192-194 | for every expected and every revision past expected + 1, a run without deletes and off the wire in which a reread conflict follows the call's own write |
| KeyValueTheorems.RereadConflictWithoutWrite | internal/kv/kv.go:192-194 | for the same revisions, such a run in which the call never wrote |
| KeyValueTheorems.AnsweredSuccessIsOwn | internal/kv/kv.go:68-75 | success that needed no reread means that the call itself wrote the entry |
| KeyValueTheorems.OtherSuccessIsATwins | internal/kv/kv.go:186-188 | success without an own write comes from a reread, and from another call's write of the same entry |
| KeyValueSafety.ResolutionIsExact | internal/kv/kv.go:186-188 | the reread reports success exactly when the key holds the value at expected + 1, the uint64 wrap-around notwithstanding |
| KeyValueStore.Store.Put | internal/kv/kv.go:59-196 | success means expected + 1 and a value held during the call; a refusal without reread means nothing was or can be written; left alone it is compare-and-put: it writes expected + 1 exactly when the key is at the expected revision below the bigint ceiling, and else changes nothing and answers conflict or the original error, each exactly when it should |
| KeyValueStore.Store.Get | internal/kv/kv.go:38-57 | an entry found is the last version since the last delete, its revision the number of those versions; absent, unreadable and invalid are told apart exactly |
| KeyValueStore.Store.Delete | internal/kv/kv.go:117-149 | nil means the key was absent at an instant of the call, the lost statement's error that it was still there at the read; left alone the key is gone; no other row changes |
| Template.Substitute | migrations.go:111-114 | whatever the iteration order, the loop computes the simultaneous substitution |
| Template.NoTokenRemains | migrations.go:99-114 | no token of the map is left at any place of the result |
| Template.OneMoreToken | migrations.go:112-114 | replacing one more token in a rendered text is rendering with one more token, for every text |
| Template.RenderMigration | migrations.go:99-114 | for every validated schema and prefix and every text and order the statement is the rendering of the text, with no listed token left |
| Template.FirstPlaceholder | migrations.go:99-114 | in a rendering the text before the first placeholder is copied, the placeholder becomes the quoted schema or the quoted table prefix and name, and the text after it is rendered by itself |
| Template.RendersOnce | migrations.go:99-114 | a text has one rendering only |
| Template.PlainIsQuoted | internal/postgres/postgres.go:18-20 | a plain identifier is quoted by two quotes and nothing else, without braces |
| Template.CheckIdentifier | options.go:220-231 | accepts exactly the lower-case identifiers within the limit |
| Migrations.Database.Migrate | migrations.go:24-134 | success under Apply: the missing versions ran once each in order up to the current one; a failure leaves the schema unchanged or fully current; exact causes of each refusal |
| Migrations.RunMissing | migrations.go:75-122 | the loop stages exactly the plan of the embedded files, or stops at a gap or a failed statement |
| Migrations.PlanReachesCurrent | migrations.go:75-126 | the loop ends at the current version if and only if the numbers above the start are exactly those up to it |
| Migrations.PlanIsConsecutive | migrations.go:92-122 | the scripts run carry the successive versions after the start |
| Migrations.OnlyAGapStops | migrations.go:92-94 | the not-monotonic error is reached exactly at a gap in the numbering |
| Migrations.DuplicateIsSkipped | migrations.go:78-80 | of two files with one number the later never runs: leaving it out changes nothing |
| MigrationOwners.EachVersionCommitsOnce | migrations.go:46-127 | over any interleaving of owners of any builds, committed scripts carry successive versions, each once, and the version table agrees |
| MigrationOwners.EveryChangeIsComplete | migrations.go:46-134 | every change of the schema is the whole plan of one build and ends at that build's version |
| MigrationOwners.OwnerAlone | migrations.go:46-134 | an owner that is not disturbed succeeds exactly when the numbers above the stored version are exactly those up to its own, and then appends its whole plan; otherwise it changes nothing |
| MigrationOwners.FailureHasCause | migrations.go:46-134 | over any interleaving an owner fails only by an error, by an unanswered commit, or because its files do not lead from the stored version to its own |
| MigrationOwners.OwnersAreSerialized | migrations.go:36-48 | at most one owner is inside its transaction, a lost commit included |

## Left out

- LeaseStore.Store.RenewLoop: covers any finite number of rounds of a loop that may run forever.
- LeaseStore.Store.Close: a second Close of the same store does not copy its leases while the first is at work.
- LeaseLost.OpenOverlapIsBounded: takes the time in which Lost closes after the safe time as a bound d; that it is a matter of at most five local steps is `LoopWindsDown`.
- The deadline of a renewal is taken as sharp: a statement or commit is answered before the safe time or not at all.
- Cursor.RankedRoundTrip: needs valid UTF-8 names and a payload within the ceiling, which emission does not check; `EmittedCursorDecodesIff` and `SanitizeFixesExactlyValid` say what happens otherwise.
- Cursor.AcceptedIsCanonical: the model parses the canonical field layout directly, so which error rule a non-canonical but well-formed JSON payload draws (malformed, unknown version or wrong kind) is not modelled; that it is refused is.
- OrderedStore.Store.Create: the identity is taken as already validated by `storage.ValidateOrderedID`.
- Assumed of PostgreSQL: row locks, primary keys, CHECK constraints, atomic commit, one instant per statement, serialization failures reported as retryable errors. Its internals are not modelled.
- Assumed of clocks: the database clock and all client clocks advance at one rate; their offsets are arbitrary.
- Assumed of randomness: holder tokens drawn by different Acquire calls differ.
- One lease name at a time: every lease statement addresses one row, so names do not interact.
- `storage.Validate*` and `storage.*CursorKind` are not part of this model: names are nonempty, stable keys are 1 to 256 bytes of valid UTF-8, values at most 1048576 bytes, limits positive, the kinds are "ranked" and "due".
- Contexts and timeouts: "the operation may stop with an error here"; `guard.Bound`, statement timeouts and the nil-context refusal are not modelled beyond that. A lock wait that ends in a timeout is a non-retryable failure.
- Payload and value aliasing (`bytes.Clone`): values here are immutable.
- Nil ledger payloads; ledger `Tip`; `KV.Keys`.
- pgx, pools, TLS, DSN parsing, `Open`, option defaults and ranges, error redaction.
- Sorting and globbing of embedded migration files: the runner receives them sorted by number. Modes other than Apply appear in `Migrate` but not among concurrent owners, where they change nothing.
- Backup and restore, which can rewind any of the tables, and the source guards, plan gates and mutation script of the repository's tooling.
