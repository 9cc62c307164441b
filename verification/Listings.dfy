/**
 The `listings` table and the SQL statements that write it.

 A row is identified by its unique (channel, goods_ref) pair; no statement of the
 repository deletes a row, so this pair stands for the numeric id as well.
 Each function below is one statement, with exactly its WHERE clause, applied to the
 whole table at the database time `clock`.
 */
module Listings {
  import opened Domain

  datatype ActualState = Unknown | Gone | Active | Leased | Stale

  datatype MismatchReason = OrphanNotRoutable | SurplusCopies

  /** The table constraint makes `since` and `reason` present together or absent together. */
  datatype Mismatch = Mismatch(since: int, reason: MismatchReason)

  /** Money in cents; a NULL long price reads as 0. */
  datatype Terms = Terms(rent: int, long: int, days: int, deposit: int)

  datatype Key = Key(ch: Channel, ref: string)

  datatype Row = Row(
    asset: string,
    hash: string,
    state: ActualState,
    terms: Terms,
    listedAt: Option<int>,
    syncedAt: Option<int>,
    repricedAt: Option<int>,
    retiredAt: Option<int>,
    mismatch: Option<Mismatch>)

  type Table = map<Key, Row>

  /** One row of a remote shelf response. */
  datatype ShelfRow = ShelfRow(
    ch: Channel,
    ref: string,
    asset: string,
    hash: string,
    display: string,
    leased: bool,
    terms: Terms,
    listedAt: Option<int>)

  predicate OnShelf(r: Row) { r.state == Active || r.state == Leased }

  /** GREATEST(actual_synced_at, last_reprice_at), which ignores NULLs. */
  function Freshness(r: Row): Option<int>
  {
    match (r.syncedAt, r.repricedAt)
    case (None, b) => b
    case (a, None) => a
    case (Some(a), Some(b)) => Some(Max(a, b))
  }

  /** The timestamp guard of both snapshot statements. */
  predicate Admits(r: Row, at: int) { Freshness(r) == None || Freshness(r).value <= at }

  function ShelfState(l: ShelfRow): ActualState { if l.leased then Leased else Active }

  /** The row that an accepted shelf row leaves behind when one was stored already. */
  function Refreshed(r: Row, l: ShelfRow, at: int): Row
  {
    r.(asset := l.asset, hash := l.hash, state := ShelfState(l), terms := l.terms,
       listedAt := if r.listedAt.Some? then r.listedAt else l.listedAt,
       mismatch := if r.state == ShelfState(l) then r.mismatch else None,
       retiredAt := None, syncedAt := Some(at))
  }

  function Discovered(l: ShelfRow, at: int): Row
  {
    Row(l.asset, l.hash, ShelfState(l), l.terms, l.listedAt, Some(at), None, None, None)
  }

  /** upsertListingFromShelf, with the observation time of its response. */
  function UpsertFromShelf(t: Table, l: ShelfRow, at: int): Table
  {
    var k := Key(l.ch, l.ref);
    if k !in t then t[k := Discovered(l, at)]
    else if Admits(t[k], at) then t[k := Refreshed(t[k], l, at)]
    else t
  }

  predicate IsMissing(k: Key, r: Row, ch: Channel, seen: set<string>, at: int)
  {
    k.ch == ch && r.state == Active && k.ref !in seen && Admits(r, at)
  }

  /** markMissingListings */
  function MarkMissing(t: Table, ch: Channel, seen: set<string>, at: int): Table
  {
    map k | k in t ::
      if IsMissing(k, t[k], ch, seen, at)
      then t[k].(state := Gone, mismatch := None, retiredAt := Some(at), syncedAt := Some(at))
      else t[k]
  }

  /** RecordPublishedListing: a conflict refreshes state and terms but keeps asset and hash. */
  function RecordPublished(t: Table, k: Key, asset: string, hash: string, terms: Terms, clock: int): Table
  {
    if k in t then
      t[k := t[k].(state := Active, terms := terms, syncedAt := Some(clock), retiredAt := None, mismatch := None)]
    else
      t[k := Row(asset, hash, Active, terms, Some(clock), Some(clock), None, None, None)]
  }

  /** MarkListingDelisted */
  function MarkDelisted(t: Table, k: Key, clock: int): Table
  {
    if k in t then t[k := t[k].(state := Gone, syncedAt := Some(clock), retiredAt := Some(clock), mismatch := None)]
    else t
  }

  /** UpdateListingDecision */
  function UpdateDecision(t: Table, k: Key, terms: Terms, clock: int): Table
  {
    if k in t then t[k := t[k].(terms := terms, repricedAt := Some(clock))] else t
  }

  type Observations = map<Key, Option<MismatchReason>>

  /** The two CASE expressions of ObserveReconMismatches for one observed row. */
  function Observed(r: Row, seen: Option<MismatchReason>, now: int): Row
  {
    if seen == None || r.state != Active then r.(mismatch := None)
    else if r.mismatch.Some? && r.mismatch.value.reason == seen.value then r
    else r.(mismatch := Some(Mismatch(now, seen.value)))
  }

  /** ObserveReconMismatches */
  function ObserveMismatches(t: Table, obs: Observations, now: int): Table
  {
    map k | k in t :: if k in obs then Observed(t[k], obs[k], now) else t[k]
  }

  /** Only an active row may carry a mismatch. */
  ghost predicate MismatchOnlyActive(t: Table)
  {
    forall k | k in t :: t[k].mismatch.Some? ==> t[k].state == Active
  }
}
