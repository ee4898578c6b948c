/**
 The status vocabularies of the cargo lifecycle, and the "reached at least this
 stage" lists the rollups are written with.
 */
module Statuses {

  datatype ItemStatus =
    | Registered
    | ReceivedOriginWarehouse
    | Measured
    | Processed
    | Consolidated
    | AssignedToContainer
    | AssignedToManifest
    | Loaded
    | DepartedOrigin
    | InTransit
    | ArrivedDestination
    | ReceivedDestinationWarehouse
    | ReadyForPickup
    | OutForDelivery
    | Delivered
    | PickedUp
    | Exception
    | Cancelled

  datatype ShipmentStatus =
    | Draft
    | QuoteRequested
    | AwaitingItems
    | WarehouseReceived
    | Processing
    | ReadyForConsolidation
    | Consolidated
    | Booked
    | Loaded
    | Departed
    | InTransit
    | ArrivedDestination
    | CustomsProcessing
    | CustomsCleared
    | ReadyForPickup
    | OutForDelivery
    | Delivered
    | Completed
    | Cancelled

  datatype ContainerStatus = Booked | Loading | Loaded | Departed | InTransit | Arrived | CustomsHold | Unloading | Closed

  datatype ManifestStatus = Draft | Finalized | Departed | Arrived | Submitted | Archived

  datatype ShipmentMode = Air | OceanLcl | OceanFcl | Roro

  datatype EventType =
    | ShipmentCreated
    | ItemRegistered
    | ReceivedAtWarehouse
    | Measured
    | Processed
    | Consolidated
    | AssignedToContainer
    | RemovedFromContainer
    | AssignedToManifest
    | RemovedFromManifest
    | Loaded
    | DepartedOrigin
    | InTransit
    | ArrivedDestination
    | ReceivedDestinationWarehouse
    | ReadyForPickup
    | OutForDelivery
    | Delivered
    | PickedUp
    | ReturnedToWarehouse
    | Completed
    | Exception
    | Cancelled
    | NoteAdded

  // The position of a shipment status in its declaration order.
  function Rank(st: ShipmentStatus): nat {
    match st
    case Draft => 0
    case QuoteRequested => 1
    case AwaitingItems => 2
    case WarehouseReceived => 3
    case Processing => 4
    case ReadyForConsolidation => 5
    case Consolidated => 6
    case Booked => 7
    case Loaded => 8
    case Departed => 9
    case InTransit => 10
    case ArrivedDestination => 11
    case CustomsProcessing => 12
    case CustomsCleared => 13
    case ReadyForPickup => 14
    case OutForDelivery => 15
    case Delivered => 16
    case Completed => 17
    case Cancelled => 18
  }

  /** One name for each hand-written list of item statuses. */
  datatype Stage =
    | AtLeastProcessed
    | AtLeastCommitted
    | AtLeastLoaded
    | AtLeastDeparted
    | AtLeastArrived
    | AtLeastAtDestination
    | AtLeastOutForDelivery
    | HandedOff

  // Membership in the list behind each stage, status by status.
  predicate Reached(stage: Stage, st: ItemStatus) {
    match stage
    case AtLeastProcessed =>
      st.Processed? || st.Consolidated? || st.AssignedToContainer? || st.AssignedToManifest? || st.Loaded?
      || st.DepartedOrigin? || st.InTransit? || st.ArrivedDestination? || st.ReceivedDestinationWarehouse?
      || st.ReadyForPickup? || st.OutForDelivery? || st.Delivered? || st.PickedUp?
    case AtLeastCommitted =>
      st.AssignedToContainer? || st.AssignedToManifest? || st.Loaded? || st.DepartedOrigin? || st.InTransit?
      || st.ArrivedDestination? || st.ReceivedDestinationWarehouse? || st.ReadyForPickup? || st.OutForDelivery?
      || st.Delivered? || st.PickedUp?
    case AtLeastLoaded =>
      st.Loaded? || st.DepartedOrigin? || st.InTransit? || st.ArrivedDestination?
      || st.ReceivedDestinationWarehouse? || st.ReadyForPickup? || st.OutForDelivery? || st.Delivered? || st.PickedUp?
    case AtLeastDeparted =>
      st.DepartedOrigin? || st.InTransit? || st.ArrivedDestination? || st.ReceivedDestinationWarehouse?
      || st.ReadyForPickup? || st.OutForDelivery? || st.Delivered? || st.PickedUp?
    case AtLeastArrived =>
      st.ArrivedDestination? || st.ReceivedDestinationWarehouse? || st.ReadyForPickup? || st.OutForDelivery?
      || st.Delivered? || st.PickedUp?
    case AtLeastAtDestination =>
      st.ReceivedDestinationWarehouse? || st.OutForDelivery? || st.Delivered? || st.PickedUp?
    case AtLeastOutForDelivery =>
      st.OutForDelivery? || st.Delivered? || st.PickedUp?
    case HandedOff =>
      st.PickedUp? || st.Delivered?
  }

  predicate Notifiable(st: ShipmentStatus) {
    st.WarehouseReceived? || st.Departed? || st.ArrivedDestination? || st.CustomsCleared? || st.ReadyForPickup?
    || st.OutForDelivery? || st.Delivered? || st.Completed?
  }

  // The only two statuses a rollup may take back, and to what.
  predicate BackwardMove(from: ShipmentStatus, to: ShipmentStatus) {
    (from.ReadyForConsolidation? && to.Processing?) || (from.Consolidated? && to.ReadyForConsolidation?)
  }

  predicate LegalMove(from: ShipmentStatus, to: ShipmentStatus) {
    Rank(from) < Rank(to) || BackwardMove(from, to)
  }
}
