/** Decoding a TrackV2 reply into a tracking record: error discrimination,
    normalisation of the detail list, and assembly of the event timeline. */
module UspsDecode {
  import opened Wrappers
  import opened ResponseTree
  import opened DateTimes
  import opened TrackingData
  import opened UspsService
  import opened UspsDerive

  /** The status for which a synthetic delivery event is added. */
  const Delivered := Text("DELIVERED")

  /** `rsp['TrackResponse']['TrackInfo']` */
  function ResultNode(root: Node): (r: Result<Node, DecodeError>)
    ensures r.Success? <==>
              && root.Obj? && "TrackResponse" in root.fields
              && root.fields["TrackResponse"].Obj? && "TrackInfo" in root.fields["TrackResponse"].fields
    ensures r.Success? ==> r.value == root.fields["TrackResponse"].fields["TrackInfo"]
  {
    var response :- Get(root, "TrackResponse");
    Get(response, "TrackInfo")
  }

  /** `n['Error']['Description']` */
  function ErrorDescription(n: Node): (r: Result<Node, DecodeError>)
    ensures r.Success? <==>
              n.Obj? && "Error" in n.fields && n.fields["Error"].Obj? && "Description" in n.fields["Error"].fields
    ensures r.Success? ==> r.value == n.fields["Error"].fields["Description"]
    ensures r.Failure? ==> !r.error.TrackFailed?
  {
    var error :- Get(n, "Error");
    Get(error, "Description")
  }

  /** The `TrackDetail` field as a list: absent is empty, a single node is a
      one-element list, a list is kept as it is. Only a missing key is
      tolerated; indexing a non-dict result node still fails. */
  function Details(info: Node): (r: Result<seq<Node>, DecodeError>)
    ensures r.Success? <==> info.Obj?
    ensures r.Success? && "TrackDetail" !in info.fields ==> r.value == []
    ensures r.Success? && "TrackDetail" in info.fields ==>
              var detail := info.fields["TrackDetail"];
              && (detail.Arr? ==> Arr(r.value) == detail)
              && (!detail.Arr? ==> r.value == [detail])
  {
    if !info.Obj? then Failure(WrongType("TrackDetail"))
    else if "TrackDetail" !in info.fields then Success([])
    else match info.fields["TrackDetail"]
      case Arr(items) => Success(items)
      case single => Success([single])
  }

  /** The event for one detail node; its location is derived before its date,
      and its `Event` field is read last. */
  function EventOf(e: Node, p: Parsers): (r: Result<TrackingEvent, DecodeError>)
    ensures r.Success? <==>
              && TrackingLocation(e).Success? && TrackingDate(e, p).Success?
              && e.Obj? && "Event" in e.fields
    ensures r.Success? ==>
              r.value == TrackingEvent(TrackingDate(e, p).value, TrackingLocation(e).value, e.fields["Event"])
    ensures r.Failure? ==> !r.error.TrackFailed?
  {
    var location :- TrackingLocation(e);
    var date :- TrackingDate(e, p);
    var detail :- Get(e, "Event");
    Success(TrackingEvent(date, location, detail))
  }

  /** The carrier's events, one per detail node and in the same order; the
      first node that cannot be decoded decides the failure. */
  function CarrierEvents(ds: seq<Node>, p: Parsers): (r: Result<seq<TrackingEvent>, DecodeError>)
    ensures r.Success? <==> forall k :: 0 <= k < |ds| ==> EventOf(ds[k], p).Success?
    ensures r.Success? ==>
              |r.value| == |ds| && forall k :: 0 <= k < |ds| ==> EventOf(ds[k], p) == Success(r.value[k])
    ensures r.Failure? ==> exists k :: 0 <= k < |ds| && EventOf(ds[k], p) == Failure(r.error)
  {
    if ds == [] then Success([])
    else
      var init :- CarrierEvents(ds[..|ds| - 1], p);
      var last :- EventOf(ds[|ds| - 1], p);
      Success(init + [last])
  }

  lemma {:induction false} CarrierEventsStopsAt(ds: seq<Node>, k: nat, p: Parsers)
    requires k < |ds|
    requires forall j :: 0 <= j < k ==> EventOf(ds[j], p).Success?
    requires EventOf(ds[k], p).Failure?
    ensures CarrierEvents(ds, p) == Failure(EventOf(ds[k], p).error)
  {
    var init := ds[..|ds| - 1];
    if k < |ds| - 1 {
      assert forall j :: 0 <= j < k ==> init[j] == ds[j];
      assert init[k] == ds[k];
      CarrierEventsStopsAt(init, k, p);
    } else {
      assert forall j :: 0 <= j < |init| ==> init[j] == ds[j];
    }
  }

  /** The delivery event the carrier leaves out of its own list. */
  function SyntheticEvents(status: Node, lastUpdate: DateTime, lastLocation: string): (r: seq<TrackingEvent>)
    ensures |r| <= 1
    ensures |r| == 1 <==> status == Delivered
    ensures r != [] ==> r[0] == TrackingEvent(lastUpdate, lastLocation, Delivered)
  {
    if status == Delivered then [TrackingEvent(lastUpdate, lastLocation, status)] else []
  }

  /** The whole decoding, in the order the adapter performs it: a system
      error first, then a result error, then the record. */
  function Decode(root: Node, num: string, p: Parsers): (r: Result<TrackingRecord, DecodeError>)
    ensures r.Success? ==>
              && r.value.trackingNumber == num
              && r.value.deliveryDate == r.value.lastUpdate
              && r.value.deliveryDetail == None
              && r.value.service == ServiceOf(num)
  {
    if PyContains(root, "Error") then
      var description :- ErrorDescription(root);
      Failure(TrackFailed(description))
    else
      var info :- ResultNode(root);
      if PyContains(info, "Error") then
        var description :- ErrorDescription(info);
        Failure(TrackFailed(description))
      else
        var details :- Details(info);
        var summary :- Get(info, "TrackSummary");
        var lastUpdate :- TrackingDate(summary, p);
        var lastLocation :- TrackingLocation(summary);
        var status :- Get(summary, "Event");
        var service := ServiceOf(num);
        var carrier :- CarrierEvents(details, p);
        Success(TrackingRecord(num, lastUpdate, lastUpdate, status, lastLocation, None, service,
                               SyntheticEvents(status, lastUpdate, lastLocation) + carrier))
  }

  /** The loop of `_parse_response` over the detail nodes: appends one event
      per node, in order, and stops at the first node that cannot be decoded. */
  method AppendCarrierEvents(trackinfo: TrackingInfo, details: seq<Node>, p: Parsers)
    returns (r: Result<(), DecodeError>)
    modifies trackinfo
    ensures r.Failure? ==> CarrierEvents(details, p) == Failure(r.error)
    ensures r.Success? ==>
              CarrierEvents(details, p).Success?
              && trackinfo.Snapshot() ==
                   old(trackinfo.Snapshot()).(events := old(trackinfo.events) + CarrierEvents(details, p).value)
  {
    for i := 0 to |details|
      invariant CarrierEvents(details[..i], p).Success?
      invariant trackinfo.Snapshot() ==
                  old(trackinfo.Snapshot()).(events := old(trackinfo.events) + CarrierEvents(details[..i], p).value)
    {
      var e := details[i];
      if EventOf(e, p).Failure? {
        assert forall j :: 0 <= j < i ==> details[..i][j] == details[j];
        CarrierEventsStopsAt(details, i, p);
      }
      var location :- TrackingLocation(e);
      var date :- TrackingDate(e, p);
      var detail :- Get(e, "Event");
      trackinfo.AddEvent(location, detail, date);
      assert details[..i + 1][..i] == details[..i];
    }
    assert details[..|details|] == details;
    return Success(());
  }

  /** `_parse_response`: builds the record object and then grows its event
      list, the synthetic delivery event first and the carrier's events after
      it in their own order. */
  method ParseResponse(root: Node, num: string, p: Parsers) returns (r: Result<TrackingInfo, DecodeError>)
    ensures r.Failure? ==> Decode(root, num, p) == Failure(r.error)
    ensures r.Success? ==> fresh(r.value) && Decode(root, num, p) == Success(r.value.Snapshot())
  {
    if PyContains(root, "Error") {
      var description :- ErrorDescription(root);
      return Failure(TrackFailed(description));
    }
    var info :- ResultNode(root);
    if PyContains(info, "Error") {
      var description :- ErrorDescription(info);
      return Failure(TrackFailed(description));
    }
    var details :- Details(info);
    var summary :- Get(info, "TrackSummary");
    var lastUpdate :- TrackingDate(summary, p);
    var lastLocation :- TrackingLocation(summary);
    var status :- Get(summary, "Event");
    var service := ServiceOf(num);
    var trackinfo := new TrackingInfo(num, lastUpdate, lastUpdate, status, lastLocation, None, service);
    if status == Delivered {
      trackinfo.AddEvent(lastLocation, status, lastUpdate);
    }
    assert trackinfo.events == SyntheticEvents(status, lastUpdate, lastLocation);
    var appended := AppendCarrierEvents(trackinfo, details, p);
    if appended.Failure? {
      return Failure(appended.error);
    }
    return Success(trackinfo);
  }
}
