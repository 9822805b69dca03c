/** What a decoded reply promises: which error wins, what the record holds,
    and how the event timeline is laid out. */
module UspsDecodeLemmas {
  import opened Wrappers
  import opened ResponseTree
  import opened DateTimes
  import opened TrackingData
  import opened UspsService
  import opened UspsDerive
  import opened UspsDecode

  /** A top-level `Error` decides the outcome, whatever the result node says. */
  lemma SystemErrorTakesPrecedence(root: Node, num: string, p: Parsers)
    requires root.Obj? && "Error" in root.fields
    requires root.fields["Error"].Obj? && "Description" in root.fields["Error"].fields
    ensures Decode(root, num, p) == Failure(TrackFailed(root.fields["Error"].fields["Description"]))
  {
  }

  /** Without a system error, an `Error` under the result node fails with its
      own description. */
  lemma ResultErrorWhenNoSystemError(root: Node, num: string, p: Parsers)
    requires !PyContains(root, "Error")
    requires ResultNode(root).Success? && ResultNode(root).value.Obj?
    requires "Error" in ResultNode(root).value.fields
    requires var error := ResultNode(root).value.fields["Error"];
             error.Obj? && "Description" in error.fields
    ensures Decode(root, num, p) ==
              Failure(TrackFailed(ResultNode(root).value.fields["Error"].fields["Description"]))
  {
  }

  /** A carrier-reported failure comes from exactly one of the two error
      nodes: the top-level one if present, otherwise the result node's. */
  lemma TrackFailedComesFromAnErrorNode(root: Node, num: string, p: Parsers, d: Node)
    requires Decode(root, num, p) == Failure(TrackFailed(d))
    ensures || (PyContains(root, "Error") && ErrorDescription(root) == Success(d))
            || (&& !PyContains(root, "Error")
                && ResultNode(root).Success?
                && PyContains(ResultNode(root).value, "Error")
                && ErrorDescription(ResultNode(root).value) == Success(d))
  {
  }

  /** A decoded record: the summary exists, and the status, last update and
      location all come from it. */
  lemma DecodedSummary(root: Node, num: string, p: Parsers)
    requires Decode(root, num, p).Success?
    ensures !PyContains(root, "Error") && ResultNode(root).Success?
    ensures var info := ResultNode(root).value;
            && info.Obj? && "Error" !in info.fields && "TrackSummary" in info.fields
            && var summary := info.fields["TrackSummary"];
            && var rec := Decode(root, num, p).value;
            && summary.Obj? && "Event" in summary.fields
            && rec.status == summary.fields["Event"]
            && TrackingDate(summary, p) == Success(rec.lastUpdate)
            && TrackingLocation(summary) == Success(rec.location)
  {
  }

  /** The timeline: the synthetic delivery event (only when the status is
      DELIVERED), then one event per detail node in the carrier's order. */
  lemma DecodedEvents(root: Node, num: string, p: Parsers, rec: TrackingRecord, info: Node, details: seq<Node>)
    requires Decode(root, num, p) == Success(rec)
    requires ResultNode(root) == Success(info) && Details(info) == Success(details)
    ensures var extra := if rec.status == Delivered then 1 else 0;
            && |rec.events| == extra + |details|
            && (rec.status == Delivered ==>
                  rec.events[0] == TrackingEvent(rec.lastUpdate, rec.location, rec.status))
            && (forall k {:trigger EventOf(details[k], p)} :: 0 <= k < |details| ==> EventOf(details[k], p) == Success(rec.events[extra + k]))
  {
    DecodedEventsSplit(root, num, p, rec, info, details);
    EventsLayout(rec, details, p, CarrierEvents(details, p).value);
  }

  /** A record whose timeline is the synthetic part followed by the carrier
      events has the layout `DecodedEvents` states. */
  lemma EventsLayout(rec: TrackingRecord, details: seq<Node>, p: Parsers, carrier: seq<TrackingEvent>)
    requires |carrier| == |details|
    requires forall k {:trigger EventOf(details[k], p)} :: 0 <= k < |details| ==> EventOf(details[k], p) == Success(carrier[k])
    requires rec.events == SyntheticEvents(rec.status, rec.lastUpdate, rec.location) + carrier
    ensures var extra := if rec.status == Delivered then 1 else 0;
            && |rec.events| == extra + |details|
            && (rec.status == Delivered ==>
                  rec.events[0] == TrackingEvent(rec.lastUpdate, rec.location, rec.status))
            && (forall k {:trigger EventOf(details[k], p)} :: 0 <= k < |details| ==> EventOf(details[k], p) == Success(rec.events[extra + k]))
  {
    TimelineHead(rec.status, rec.lastUpdate, rec.location, carrier);
    TimelineLayout(rec.status, rec.lastUpdate, rec.location, details, p, carrier);
  }

  /** One event per detail node, one place later exactly when the status is
      DELIVERED. */
  lemma TimelineLayout(status: Node, lastUpdate: DateTime, lastLocation: string, details: seq<Node>, p: Parsers,
                       carrier: seq<TrackingEvent>)
    requires |carrier| == |details|
    requires forall k {:trigger EventOf(details[k], p)} :: 0 <= k < |details| ==> EventOf(details[k], p) == Success(carrier[k])
    ensures var extra := if status == Delivered then 1 else 0;
            forall k {:trigger EventOf(details[k], p)} :: 0 <= k < |details| ==>
              EventOf(details[k], p) == Success((SyntheticEvents(status, lastUpdate, lastLocation) + carrier)[extra + k])
  {
    var synthetic := SyntheticEvents(status, lastUpdate, lastLocation);
    var extra := if status == Delivered then 1 else 0;
    assert |synthetic| == extra;
    AfterPrefix(synthetic, carrier);
  }

  /** The synthetic delivery event, when there is one, leads the timeline. */
  lemma TimelineHead(status: Node, lastUpdate: DateTime, lastLocation: string, carrier: seq<TrackingEvent>)
    ensures |SyntheticEvents(status, lastUpdate, lastLocation) + carrier| == (if status == Delivered then 1 else 0) + |carrier|
    ensures status == Delivered ==>
              (SyntheticEvents(status, lastUpdate, lastLocation) + carrier)[0] == TrackingEvent(lastUpdate, lastLocation, status)
  {
  }

  /** The elements of `b` sit `|a|` places later in `a + b`. */
  lemma AfterPrefix(a: seq<TrackingEvent>, b: seq<TrackingEvent>)
    ensures |a + b| == |a| + |b|
    ensures forall k :: 0 <= k < |b| ==> (a + b)[|a| + k] == b[k]
  {
  }

  /** The timeline is the synthetic part followed by the carrier's events. */
  lemma DecodedEventsSplit(root: Node, num: string, p: Parsers, rec: TrackingRecord, info: Node, details: seq<Node>)
    requires Decode(root, num, p) == Success(rec)
    requires ResultNode(root) == Success(info) && Details(info) == Success(details)
    ensures CarrierEvents(details, p).Success?
    ensures rec.events == SyntheticEvents(rec.status, rec.lastUpdate, rec.location) + CarrierEvents(details, p).value
  {
  }

  /** `root` with the result node's `TrackDetail` set to `d`, or removed when
      `d` is None. */
  function WithDetail(root: Node, d: Option<Node>): (r: Node)
    requires ResultNode(root).Success? && ResultNode(root).value.Obj?
    ensures ResultNode(r).Success? && ResultNode(r).value.Obj?
    ensures ResultNode(r).value.fields - {"TrackDetail"} == ResultNode(root).value.fields - {"TrackDetail"}
    ensures r.Obj? && r.fields - {"TrackResponse"} == root.fields - {"TrackResponse"}
  {
    var response := root.fields["TrackResponse"];
    var info := response.fields["TrackInfo"];
    var fields := if d.Some? then info.fields["TrackDetail" := d.value] else info.fields - {"TrackDetail"};
    Obj(root.fields["TrackResponse" := Obj(response.fields["TrackInfo" := Obj(fields)])])
  }

  /** Two dicts that both hold `key` with the same value, or both lack it. */
  predicate AgreeOn(a: Node, b: Node, key: string) {
    a.Obj? && b.Obj? && (key in a.fields <==> key in b.fields) && (key in a.fields ==> a.fields[key] == b.fields[key])
  }

  /** Dicts that agree outside one key agree on every other key. */
  lemma AgreeOutside(a: Node, b: Node, skip: string, key: string)
    requires a.Obj? && b.Obj? && a.fields - {skip} == b.fields - {skip} && key != skip
    ensures AgreeOn(a, b, key)
  {
    assert key in a.fields <==> key in a.fields - {skip};
    assert key in b.fields <==> key in b.fields - {skip};
    if key in a.fields {
      assert a.fields[key] == (a.fields - {skip})[key];
      assert b.fields[key] == (b.fields - {skip})[key];
    }
  }

  /** `n['Error']` and everything read through it depend only on that field. */
  lemma ErrorReadsAlike(a: Node, b: Node)
    requires AgreeOn(a, b, "Error")
    ensures PyContains(a, "Error") == PyContains(b, "Error")
    ensures ErrorDescription(a) == ErrorDescription(b)
  {
  }

  /** Decoding reads the reply only through the two error checks, the result
      node's detail list and its summary. */
  lemma DecodeReadsOnly(r1: Node, r2: Node, i1: Node, i2: Node, num: string, p: Parsers)
    requires PyContains(r1, "Error") == PyContains(r2, "Error")
    requires ErrorDescription(r1) == ErrorDescription(r2)
    requires ResultNode(r1) == Success(i1) && ResultNode(r2) == Success(i2)
    requires PyContains(i1, "Error") == PyContains(i2, "Error")
    requires ErrorDescription(i1) == ErrorDescription(i2)
    requires Details(i1) == Details(i2)
    requires Get(i1, "TrackSummary") == Get(i2, "TrackSummary")
    ensures Decode(r1, num, p) == Decode(r2, num, p)
  {
  }

  /** Two replies that differ only in the detail field, and whose detail
      fields normalise to the same list, decode alike. */
  lemma SameDetailsDecodeAlike(root: Node, d1: Option<Node>, d2: Option<Node>, num: string, p: Parsers)
    requires ResultNode(root).Success? && ResultNode(root).value.Obj?
    requires Details(ResultNode(WithDetail(root, d1)).value) == Details(ResultNode(WithDetail(root, d2)).value)
    ensures Decode(WithDetail(root, d1), num, p) == Decode(WithDetail(root, d2), num, p)
  {
    var r1, r2 := WithDetail(root, d1), WithDetail(root, d2);
    var i0, i1, i2 := ResultNode(root).value, ResultNode(r1).value, ResultNode(r2).value;
    AgreeOutside(r1, root, "TrackResponse", "Error");
    AgreeOutside(root, r2, "TrackResponse", "Error");
    ErrorReadsAlike(r1, root);
    ErrorReadsAlike(root, r2);
    AgreeOutside(i1, i0, "TrackDetail", "Error");
    AgreeOutside(i0, i2, "TrackDetail", "Error");
    ErrorReadsAlike(i1, i0);
    ErrorReadsAlike(i0, i2);
    AgreeOutside(i1, i0, "TrackDetail", "TrackSummary");
    AgreeOutside(i0, i2, "TrackDetail", "TrackSummary");
    DecodeReadsOnly(r1, r2, i1, i2, num, p);
  }

  /** A missing `TrackDetail` decodes exactly as an empty list. */
  lemma AbsentDetailIsEmptyList(root: Node, num: string, p: Parsers)
    requires ResultNode(root).Success? && ResultNode(root).value.Obj?
    ensures Decode(WithDetail(root, None), num, p) == Decode(WithDetail(root, Some(Arr([]))), num, p)
  {
    SameDetailsDecodeAlike(root, None, Some(Arr([])), num, p);
  }

  /** A single `TrackDetail` node decodes exactly as a one-element list. */
  lemma SingleDetailIsOneElementList(root: Node, detail: Node, num: string, p: Parsers)
    requires ResultNode(root).Success? && ResultNode(root).value.Obj?
    requires !detail.Arr?
    ensures Decode(WithDetail(root, Some(detail)), num, p) == Decode(WithDetail(root, Some(Arr([detail]))), num, p)
  {
    SameDetailsDecodeAlike(root, Some(detail), Some(Arr([detail])), num, p);
  }
}
