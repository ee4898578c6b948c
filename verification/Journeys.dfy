/** The hand-written status lists of the rollups, against one order of an item's journey. */
module Journeys {
  import opened Statuses

  // How far an item has come, in the order the statuses are declared; EXCEPTION and CANCELLED are no place
  // on the way.
  function Place(st: ItemStatus): int {
    match st
    case Registered => 0
    case ReceivedOriginWarehouse => 1
    case Measured => 2
    case Processed => 3
    case Consolidated => 4
    case AssignedToContainer => 5
    case AssignedToManifest => 6
    case Loaded => 7
    case DepartedOrigin => 8
    case InTransit => 9
    case ArrivedDestination => 10
    case ReceivedDestinationWarehouse => 11
    case ReadyForPickup => 12
    case OutForDelivery => 13
    case Delivered => 14
    case PickedUp => 15
    case Exception => -1
    case Cancelled => -1
  }

  function FirstOf(stage: Stage): ItemStatus {
    match stage
    case AtLeastProcessed => ItemStatus.Processed
    case AtLeastCommitted => ItemStatus.AssignedToContainer
    case AtLeastLoaded => ItemStatus.Loaded
    case AtLeastDeparted => ItemStatus.DepartedOrigin
    case AtLeastArrived => ItemStatus.ArrivedDestination
    case AtLeastAtDestination => ItemStatus.ReceivedDestinationWarehouse
    case AtLeastOutForDelivery => ItemStatus.OutForDelivery
    case HandedOff => ItemStatus.Delivered
  }

  // Each list is the whole rest of the journey from its first status on, but for the item status
  // READY_FOR_PICKUP, which the list "at destination" leaves out and nothing but a manual event writes.
  lemma ListsAreTheRestOfTheWay(stage: Stage, st: ItemStatus)
    ensures Reached(stage, st) <==> Place(st) >= Place(FirstOf(stage)) && !(stage.AtLeastAtDestination? && st.ReadyForPickup?)
  {
  }

  // So a later list is contained in every earlier one, with the same exception.
  lemma LaterListsAreSmaller(earlier: Stage, later: Stage, st: ItemStatus)
    requires Place(FirstOf(earlier)) <= Place(FirstOf(later)) && Reached(later, st)
    ensures Reached(earlier, st) || (earlier.AtLeastAtDestination? && st.ReadyForPickup?)
  {
    ListsAreTheRestOfTheWay(earlier, st);
    ListsAreTheRestOfTheWay(later, st);
  }
}
