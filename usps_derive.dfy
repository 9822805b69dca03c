/** The timestamp and the location of one summary or detail node. */
module UspsDerive {
  import opened Wrappers
  import opened PyStr
  import opened ResponseTree
  import opened DateTimes

  /** The node's `EventDate` combined with its `EventTime`, or with midnight
      when `EventTime` is empty. The date is read first. */
  function TrackingDate(node: Node, p: Parsers): (r: Result<DateTime, DecodeError>)
    ensures r.Success? ==>
              && node.Obj? && "EventDate" in node.fields && "EventTime" in node.fields
              && node.fields["EventDate"].Text?
              && p.date(node.fields["EventDate"].text) == Some(r.value.date)
    ensures r.Success? ==>
              var t := node.fields["EventTime"];
              && (Truthy(t) ==> t.Text? && p.time(t.text) == Some(r.value.time))
              && (!Truthy(t) ==> r.value.time == Midnight)
    ensures && node.Obj? && "EventDate" in node.fields && "EventTime" in node.fields
            && node.fields["EventDate"].Text? && p.date(node.fields["EventDate"].text).Some? ==>
              var d := p.date(node.fields["EventDate"].text).value;
              var t := node.fields["EventTime"];
              && (!Truthy(t) ==> r == Success(DateTime(d, Midnight)))
              && (t.Text? && t.text != "" && p.time(t.text).Some? ==>
                    r == Success(DateTime(d, p.time(t.text).value)))
  {
    var d :- Get(node, "EventDate");
    if !d.Text? then Failure(WrongType("EventDate"))
    else if p.date(d.text).None? then Failure(BadDate(d.text))
    else
      var date := p.date(d.text).value;
      var t :- Get(node, "EventTime");
      if !Truthy(t) then Success(DateTime(date, Midnight))
      else if !t.Text? then Failure(WrongType("EventTime"))
      else if p.time(t.text).None? then Failure(BadDate(t.text))
      else Success(DateTime(date, p.time(t.text).value))
  }

  /** A date or time text the parser rejects is a failure, never a default. */
  lemma UnparsableDateFails(node: Node, p: Parsers)
    requires node.Obj? && "EventDate" in node.fields && node.fields["EventDate"].Text?
    requires p.date(node.fields["EventDate"].text).None?
    ensures TrackingDate(node, p) == Failure(BadDate(node.fields["EventDate"].text))
  {
  }

  lemma UnparsableTimeFails(node: Node, p: Parsers)
    requires node.Obj? && "EventDate" in node.fields && node.fields["EventDate"].Text?
    requires p.date(node.fields["EventDate"].text).Some?
    requires "EventTime" in node.fields && node.fields["EventTime"].Text?
    requires node.fields["EventTime"].text != "" && p.time(node.fields["EventTime"].text).None?
    ensures TrackingDate(node, p) == Failure(BadDate(node.fields["EventTime"].text))
  {
  }

  /** The country, or "US" when the country is empty. */
  function CountryOrUS(country: Node): (r: Node)
    ensures Truthy(r)
    ensures Truthy(country) ==> r == country
    ensures !Truthy(country) ==> r == Text("US")
  {
    if Truthy(country) then country else Text("US")
  }

  /** `','.join((city, state, country or 'US'))`: the three fields are read
      in that order, and the join needs all three to be strings. */
  function TrackingLocation(node: Node): (r: Result<string, DecodeError>)
    ensures r.Success? <==>
              && node.Obj? && "EventCity" in node.fields && "EventState" in node.fields
              && "EventCountry" in node.fields
              && node.fields["EventCity"].Text? && node.fields["EventState"].Text?
              && CountryOrUS(node.fields["EventCountry"]).Text?
    ensures r.Success? ==>
              r.value == node.fields["EventCity"].text + "," + node.fields["EventState"].text + ","
                         + CountryOrUS(node.fields["EventCountry"]).text
  {
    var city :- Get(node, "EventCity");
    var state :- Get(node, "EventState");
    var country :- Get(node, "EventCountry");
    var parts := [city, state, CountryOrUS(country)];
    if !city.Text? then Failure(WrongType("EventCity"))
    else if !state.Text? then Failure(WrongType("EventState"))
    else if !parts[2].Text? then Failure(WrongType("EventCountry"))
    else
      JoinThree(",", city.text, state.text, parts[2].text);
      Success(Join(",", [city.text, state.text, parts[2].text]))
  }

  /** The location splits back into city, state and country when none of
      them holds a comma; an empty country comes back as "US". */
  lemma LocationSplitsBack(node: Node)
    requires TrackingLocation(node).Success?
    requires ',' !in node.fields["EventCity"].text && ',' !in node.fields["EventState"].text
    requires ',' !in CountryOrUS(node.fields["EventCountry"]).text
    ensures Split(TrackingLocation(node).value, ',') ==
              [node.fields["EventCity"].text, node.fields["EventState"].text,
               if Truthy(node.fields["EventCountry"]) then node.fields["EventCountry"].text else "US"]
  {
    var parts := [node.fields["EventCity"].text, node.fields["EventState"].text,
                  CountryOrUS(node.fields["EventCountry"]).text];
    assert TrackingLocation(node).value == Join(",", parts);
    SplitJoin(parts, ',');
  }
}
