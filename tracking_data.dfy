/** The carrier-neutral tracking record the decoder fills in. */
module TrackingData {
  import opened Wrappers
  import opened ResponseTree
  import opened DateTimes

  /** One entry of the event timeline. `detail` is the carrier's `Event`
      field as it came, never converted. */
  datatype TrackingEvent = TrackingEvent(date: DateTime, location: string, detail: Node)

  /** The value of a `TrackingInfo` at one moment. */
  datatype TrackingRecord = TrackingRecord(
    trackingNumber: string,
    lastUpdate: DateTime,
    deliveryDate: DateTime,
    status: Node,
    location: string,
    deliveryDetail: Option<string>,
    service: string,
    events: seq<TrackingEvent>)

  /** The tracking record object: built once from the summary, then its
      event list grows by `AddEvent`. */
  class TrackingInfo {
    var trackingNumber: string
    var lastUpdate: DateTime
    var deliveryDate: DateTime
    var status: Node
    var location: string
    var deliveryDetail: Option<string>
    var service: string
    var events: seq<TrackingEvent>

    function Snapshot(): (r: TrackingRecord)
      reads this
    {
      TrackingRecord(trackingNumber, lastUpdate, deliveryDate, status, location,
                     deliveryDetail, service, events)
    }

    constructor (trackingNumber: string, lastUpdate: DateTime, deliveryDate: DateTime,
                 status: Node, location: string, deliveryDetail: Option<string>, service: string)
      ensures Snapshot() == TrackingRecord(trackingNumber, lastUpdate, deliveryDate, status,
                                           location, deliveryDetail, service, [])
    {
      this.trackingNumber := trackingNumber;
      this.lastUpdate := lastUpdate;
      this.deliveryDate := deliveryDate;
      this.status := status;
      this.location := location;
      this.deliveryDetail := deliveryDetail;
      this.service := service;
      this.events := [];
    }

    /** Appends one event; nothing else changes. */
    method AddEvent(location: string, detail: Node, date: DateTime)
      modifies this
      ensures Snapshot() == old(Snapshot()).(events := old(events) + [TrackingEvent(date, location, detail)])
    {
      events := events + [TrackingEvent(date, location, detail)];
    }
  }
}
