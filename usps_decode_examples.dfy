/** When a reply decodes, and one worked reply. */
module UspsDecodeExamples {
  import opened Wrappers
  import opened ResponseTree
  import opened DateTimes
  import opened TrackingData
  import opened UspsService
  import opened UspsDerive
  import opened UspsDecode

  /** A reply decodes when neither error node is present, the summary yields
      a date, a location and an `Event`, and every detail node decodes. */
  lemma DecodeSucceeds(root: Node, num: string, p: Parsers)
    requires !PyContains(root, "Error")
    requires ResultNode(root).Success? && ResultNode(root).value.Obj?
    requires var info := ResultNode(root).value;
             && "Error" !in info.fields && "TrackSummary" in info.fields
             && var summary := info.fields["TrackSummary"];
             && TrackingDate(summary, p).Success? && TrackingLocation(summary).Success?
             && summary.Obj? && "Event" in summary.fields
    requires var details := Details(ResultNode(root).value).value;
             forall k :: 0 <= k < |details| ==> EventOf(details[k], p).Success?
    ensures Decode(root, num, p).Success?
  {
  }

  /** The record a reply decodes to, assembled from the values each step
      reads: the summary's date, location and `Event`, the service of the
      number, and the synthetic event ahead of the carrier's events. */
  lemma DecodeAssembles(root: Node, num: string, p: Parsers, info: Node, details: seq<Node>, summary: Node,
                        lastUpdate: DateTime, lastLocation: string, status: Node, carrier: seq<TrackingEvent>)
    requires !PyContains(root, "Error") && ResultNode(root) == Success(info) && !PyContains(info, "Error")
    requires Details(info) == Success(details) && Get(info, "TrackSummary") == Success(summary)
    requires TrackingDate(summary, p) == Success(lastUpdate) && TrackingLocation(summary) == Success(lastLocation)
    requires Get(summary, "Event") == Success(status) && CarrierEvents(details, p) == Success(carrier)
    ensures Decode(root, num, p) == Success(TrackingRecord(num, lastUpdate, lastUpdate, status, lastLocation, None,
                                                           ServiceOf(num),
                                                           SyntheticEvents(status, lastUpdate, lastLocation) + carrier))
  {
  }

  function Place(date: string, time: string, event: string): (r: Node) {
    Obj(map["EventDate" := Text(date), "EventTime" := Text(time), "EventCity" := Text("AUSTIN"),
            "EventState" := Text("TX"), "EventCountry" := Text(""), "Event" := Text(event)])
  }

  const ExampleParsers := Parsers(s => Some(Date(2020, 1, 5)), s => Some(Time(14, 30, 0)))
  const ExampleSummary := Place("January 5, 2020", "", "DELIVERED")
  const ExampleDetail := Place("January 5, 2020", "02:30 PM", "ARRIVAL AT UNIT")
  const ExampleInfo := Obj(map["TrackSummary" := ExampleSummary, "TrackDetail" := ExampleDetail])
  const ExampleReply := Obj(map["TrackResponse" := Obj(map["TrackInfo" := ExampleInfo])])

  lemma ExampleLookups()
    ensures !PyContains(ExampleReply, "Error") && ResultNode(ExampleReply) == Success(ExampleInfo)
    ensures !PyContains(ExampleInfo, "Error") && Details(ExampleInfo) == Success([ExampleDetail])
    ensures Get(ExampleInfo, "TrackSummary") == Success(ExampleSummary)
    ensures Get(ExampleSummary, "Event") == Success(Text("DELIVERED"))
  {
  }

  lemma ExampleLocations()
    ensures TrackingLocation(ExampleSummary) == Success("AUSTIN,TX,US")
    ensures TrackingLocation(ExampleDetail) == Success("AUSTIN,TX,US")
  {
    assert "AUSTIN" + "," + "TX" + "," + "US" == "AUSTIN,TX,US";
  }

  lemma ExampleDates()
    ensures TrackingDate(ExampleSummary, ExampleParsers) == Success(DateTime(Date(2020, 1, 5), Midnight))
    ensures TrackingDate(ExampleDetail, ExampleParsers) == Success(DateTime(Date(2020, 1, 5), Time(14, 30, 0)))
  {
  }

  lemma ExampleCarrierEvents()
    ensures CarrierEvents([ExampleDetail], ExampleParsers) == Success([
              TrackingEvent(DateTime(Date(2020, 1, 5), Time(14, 30, 0)), "AUSTIN,TX,US", Text("ARRIVAL AT UNIT"))])
  {
    ExampleLocations();
    ExampleDates();
    var ev := TrackingEvent(DateTime(Date(2020, 1, 5), Time(14, 30, 0)), "AUSTIN,TX,US", Text("ARRIVAL AT UNIT"));
    assert EventOf(ExampleDetail, ExampleParsers) == Success(ev);
    var r := CarrierEvents([ExampleDetail], ExampleParsers);
    assert r.Success? && |r.value| == 1 && EventOf(ExampleDetail, ExampleParsers) == Success(r.value[0]);
    assert r.value == [r.value[0]] == [ev];
  }

  /** A delivered parcel with a single carrier event: two events, the
      synthetic delivery first, and "US" filled in for the empty country. */
  lemma DeliveredWithOneDetail()
    ensures var r := Decode(ExampleReply, "EA123456789US", ExampleParsers);
            && r.Success?
            && r.value.status == Text("DELIVERED")
            && r.value.lastUpdate == DateTime(Date(2020, 1, 5), Midnight)
            && r.value.service == "express mail"
            && r.value.events == [
                 TrackingEvent(DateTime(Date(2020, 1, 5), Midnight), "AUSTIN,TX,US", Text("DELIVERED")),
                 TrackingEvent(DateTime(Date(2020, 1, 5), Time(14, 30, 0)), "AUSTIN,TX,US", Text("ARRIVAL AT UNIT"))]
  {
    var lastUpdate := DateTime(Date(2020, 1, 5), Midnight);
    var status := Text("DELIVERED");
    var carrier := [TrackingEvent(DateTime(Date(2020, 1, 5), Time(14, 30, 0)), "AUSTIN,TX,US", Text("ARRIVAL AT UNIT"))];
    ServiceExamples();
    ExampleLookups();
    ExampleLocations();
    ExampleDates();
    ExampleCarrierEvents();
    DecodeAssembles(ExampleReply, "EA123456789US", ExampleParsers, ExampleInfo, [ExampleDetail], ExampleSummary,
                    lastUpdate, "AUSTIN,TX,US", status, carrier);
    assert SyntheticEvents(status, lastUpdate, "AUSTIN,TX,US") == [TrackingEvent(lastUpdate, "AUSTIN,TX,US", status)];
  }
}
