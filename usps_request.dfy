/** The TrackV2 request document sent for one tracking number. */
module UspsRequest {
  import opened Wrappers
  import opened PyStr

  const RequestOpen := "<TrackFieldRequest USERID=\""
  const RequestMiddle := "\"><TrackID ID=\""
  const RequestClose := "\"/></TrackFieldRequest>"

  /** The request: the user id as an attribute of the outer element and the
      tracking number as the `ID` attribute of the inner one. Neither value
      is escaped. */
  function BuildRequest(userid: string, num: string): (req: string)
    ensures |req| == |userid| + |num| + |RequestOpen| + |RequestMiddle| + |RequestClose|
  {
    RequestOpen + userid + RequestMiddle + num + RequestClose
  }

  /** Reads the two values out of `open + first + middle + second + close`:
      the first runs up to the first quote after `open`, the second up to
      `close`. */
  function ReadFields(req: string, open: string, middle: string, close: string): (r: Option<(string, string)>)
    ensures r.Some? ==> open + r.value.0 + middle + r.value.1 + close == req && '"' !in r.value.0
  {
    if !StartsWith(req, open) then None
    else
      var rest := req[|open|..];
      var q := Find(rest, '"');
      if q < 0 || !StartsWith(rest[q..], middle) then None
      else
        var tail := rest[q + |middle|..];
        if !EndsWith(tail, close) then None
        else
          var first, second := rest[..q], tail[..|tail| - |close|];
          Reassemble(req, open, middle, close, q);
          Some((first, second))
  }

  /** The pieces `ReadFields` cuts out put the text back together. */
  lemma Reassemble(req: string, open: string, middle: string, close: string, q: nat)
    requires StartsWith(req, open) && q <= |req| - |open|
    requires StartsWith(req[|open|..][q..], middle)
    requires EndsWith(req[|open|..][q + |middle|..], close)
    ensures var rest := req[|open|..];
            var tail := rest[q + |middle|..];
            open + rest[..q] + middle + tail[..|tail| - |close|] + close == req
  {
    var rest := req[|open|..];
    var tail := rest[q + |middle|..];
    var first, second := rest[..q], tail[..|tail| - |close|];
    StartsWithRest(req, open);
    StartsWithRest(rest[q..], middle);
    EndsWithRest(tail, close);
    assert rest == first + rest[q..];
    assert rest[q..][|middle|..] == tail;
    assert rest[q..] == middle + (second + close);
    assert req == open + (first + (middle + (second + close)));
    ConcatFive(open, first, middle, second, close);
  }

  /** Reads the user id and the tracking number back out of a request. */
  function ReadRequest(req: string): (r: Option<(string, string)>)
    ensures r.Some? ==> BuildRequest(r.value.0, r.value.1) == req && '"' !in r.value.0
  {
    ReadFields(req, RequestOpen, RequestMiddle, RequestClose)
  }

  /** What `ReadFields` returns once every test it makes has passed. */
  lemma ReadFieldsCuts(req: string, open: string, middle: string, close: string, q: nat)
    requires StartsWith(req, open) && Find(req[|open|..], '"') == q
    requires StartsWith(req[|open|..][q..], middle)
    requires EndsWith(req[|open|..][q + |middle|..], close)
    ensures var tail := req[|open|..][q + |middle|..];
            ReadFields(req, open, middle, close) == Some((req[|open|..][..q], tail[..|tail| - |close|]))
  {
  }

  /** `ReadFields` recovers both values of a five-part text whose middle part
      starts with a quote, provided the first value holds none. */
  lemma ReadFieldsRoundTrip(open: string, first: string, middle: string, second: string, close: string)
    requires '"' !in first && middle != [] && middle[0] == '"'
    ensures ReadFields(open + first + middle + second + close, open, middle, close) == Some((first, second))
  {
    var tail := second + close;
    var after := middle + tail;
    var rest := first + after;
    var req := open + first + middle + second + close;
    ConcatFive(open, first, middle, second, close);
    ConcatStartsWith(open, rest);
    assert StartsWith(req, open) && req[|open|..] == rest;
    FindPastPrefix(first, after, '"');
    ConcatEndsWith(first, after);
    ConcatStartsWith(first, after);
    ConcatStartsWith(middle, tail);
    assert rest[|first|..] == after && StartsWith(after, middle) && after[|middle|..] == tail;
    assert rest[|first| + |middle|..] == tail;
    ConcatEndsWith(second, close);
    assert EndsWith(tail, close) && tail[..|tail| - |close|] == second;
    ReadFieldsCuts(req, open, middle, close, |first|);
  }

  /** Both values come back out of the request, provided the user id holds
      no quote character. */
  lemma RequestRoundTrip(userid: string, num: string)
    requires '"' !in userid
    ensures ReadRequest(BuildRequest(userid, num)) == Some((userid, num))
  {
    assert RequestMiddle[0] == '"';
    ReadFieldsRoundTrip(RequestOpen, userid, RequestMiddle, num, RequestClose);
  }

  /** A quote in the user id ends the attribute early: such a user id does not
      survive the round trip. */
  lemma QuoteInUseridIsNotRecovered()
    ensures ReadRequest(BuildRequest("a\"b", "1")) != Some(("a\"b", "1"))
  {
  }
}
