/** Exposure guards: pure functions of the durable tables. */
module Guards {
  import opened Common
  import opened Lifecycle
  import opened Ledger

  predicate Live(row: OrderRow) {
    !IsTerminal(row.core.state)
  }

  predicate UnresolvedOn(row: OrderRow, instrument: string) {
    row.core.instrument == instrument && row.core.state in {Unknown, Reconciling}
  }

  predicate HasUnresolved(orders: seq<OrderRow>, instrument: string) {
    exists i | 0 <= i < |orders| :: UnresolvedOn(orders[i], instrument)
  }

  predicate EntryOn(row: OrderRow, instrument: string) {
    row.core.instrument == instrument && row.authority == Entry
  }

  predicate HasOpenEntry(orders: seq<OrderRow>, instrument: string) {
    exists i | 0 <= i < |orders| :: EntryOn(orders[i], instrument) && Live(orders[i])
  }

  /** What a live exit on the instrument may still take from the position. */
  function ExitRemaining(row: OrderRow, instrument: string): real {
    if row.core.instrument == instrument && row.authority == ProtectiveExit && Live(row)
    then row.core.qty - row.core.filled else 0.0
  }

  /** Unfilled quantity already committed to live protective exits. */
  function OpenExitRemaining(orders: seq<OrderRow>, instrument: string): real {
    if orders == [] then 0.0
    else OpenExitRemaining(orders[..|orders| - 1], instrument) + ExitRemaining(orders[|orders| - 1], instrument)
  }

  /** The quantity an entry may have under the position cap; None is a refusal. */
  function EntryQty(position: real, intent: Intent, cap: Option<real>): Option<real> {
    if cap.None? || Abs(position + SignedQty(intent.side, intent.qty)) <= cap.value then Some(intent.qty)
    else
      var headroom := cap.value - Abs(position);
      if headroom <= 0.0 then None else Some(Min(intent.qty, headroom))
  }

  /** The quantity an exit may have, given what live exits already claim. */
  function ExitQty(position: real, committed: real, intent: Intent): Option<real> {
    var exitable := Abs(position) - committed;
    if exitable <= 0.0 then None else Some(Min(intent.qty, exitable))
  }

  /** An accepted entry is never enlarged, never takes the position past its cap,
      and is cut only where it would, and then to all the cap leaves. */
  lemma EntryStaysUnderCap(position: real, intent: Intent, cap: Option<real>)
    ensures
      var qty := EntryQty(position, intent, cap);
      && (qty.Some? ==> 0.0 < qty.value <= intent.qty)
      && (qty.Some? && cap.Some? ==> Abs(position + SignedQty(intent.side, qty.value)) <= cap.value)
      && (qty.Some? && qty.value < intent.qty ==>
            && cap.Some? && Abs(position + SignedQty(intent.side, intent.qty)) > cap.value
            && Abs(position) + qty.value == cap.value)
      && (qty.None? <==> cap.Some? && Abs(position) >= cap.value
                         && Abs(position + SignedQty(intent.side, intent.qty)) > cap.value)
  {
  }

  /** An accepted exit is never enlarged, never takes more than is unclaimed, and
      is cut only to all of that; it is refused exactly where nothing is. */
  lemma ExitTakesWhatIsFree(position: real, committed: real, intent: Intent)
    ensures
      var qty := ExitQty(position, committed, intent);
      && (qty.Some? ==> 0.0 < qty.value <= intent.qty && qty.value <= Abs(position) - committed)
      && (qty.Some? && qty.value < intent.qty ==> qty.value == Abs(position) - committed)
      && (qty.None? <==> Abs(position) <= committed)
  {
  }

  /** What holds an instrument against new entries, order by order. */
  lemma HoldsAre(orders: seq<OrderRow>, instrument: string)
    ensures HasUnresolved(orders, instrument) <==>
              exists row <- orders :: row.core.instrument == instrument && row.core.state in {Unknown, Reconciling}
    ensures HasOpenEntry(orders, instrument) <==>
              exists row <- orders :: && row.core.instrument == instrument && row.authority == Entry
                                      && row.core.state !in {Filled, Canceled, Rejected}
  {
  }
}
