# USPS tracking adapter — decoding core

A Dafny model of the USPS adapter of `packagetrack`
(`packagetrack/service/usps_interface.py`): it recognises USPS tracking
numbers by their shape, builds the TrackV2 request document, and decodes the
carrier's reply into a carrier-neutral tracking record with an ordered event
timeline.

The reply is taken after `xml_to_dict` has turned the XML into a tree of
dicts, lists and strings (`ResponseTree.Node`). Decoding follows the adapter
step by step:

- a top-level `Error` is a system error and is checked first;
- an `Error` under `TrackResponse/TrackInfo` is a result error, checked only
  when there is no system error;
- `TrackDetail` is normalised to a list: absent is empty, a single node is a
  one-element list, a list stays as it is;
- the summary gives the last update, the location and the status;
- the service is looked up from the first two characters of the number, with
  "USPS" as the fallback;
- the event timeline is a synthetic delivery event (only when the status is
  `DELIVERED`), then one event per detail node in the carrier's order.

Every exception the Python code can raise on the way is a value of
`ResponseTree.DecodeError`:

- `TrackFailed` is the carrier's own error description;
- `MissingKey` is a `KeyError`;
- `WrongType` is a `TypeError`, raised when a non-dict is indexed or a
  non-string reaches `join` or `strptime`;
- `BadDate` is the `ValueError` of `strptime`.

Lookups happen in the source's order, so the failure the model reports is the
one Python would raise first.

Files:

- `wrappers.dfy`: Option and Result.
- `py_str.dfy`: the Python `str` operations the adapter uses: slicing,
  `startswith`, `in`, `isalpha`, `isdigit` and `join`. `Find`, `EndsWith` and
  `Split` are not used by the adapter. They are helpers for the round-trip
  lemmas, which read values back out of a request or a location. The file
  also proves that `Split` undoes `join`.
- `response_tree.dfy`: the parsed reply, `n[key]`, `key in n`, truthiness and
  the error kinds.
- `date_times.dfy`: date, time, `datetime.combine`, and the two `strptime`
  formats as a parameter.
- `tracking_data.dfy`: the tracking record, and the `TrackingInfo` object
  whose `AddEvent` appends to its event list.
- `usps_classify.dfy`: `identify` and `validate`.
- `usps_service.dfy`: the `service_types` table and the lookup by prefix.
- `usps_request.dfy`: `_build_request`, and a reader that recovers its two
  values.
- `usps_derive.dfy`: `_getTrackingDate` and `_getTrackingLocation`.
- `usps_decode.dfy`: `_parse_response`, both as a specification function
  `Decode` and as the imperative `ParseResponse`. `ParseResponse` builds the
  object and appends events in a loop (`AppendCarrierEvents`), and it is
  proved to agree with `Decode`.
- `usps_decode_lemmas.dfy`: what a decoding promises: error precedence, the
  record's fields, the timeline layout, and list normalisation as
  decode-equivalence.
- `usps_decode_examples.dfy`: sufficient conditions for a reply to decode,
  and one worked reply that decodes.

Points about the code that the model keeps:

- Both error paths raise the same `TrackFailed`. Which node held the error
  is shown by lemmas.
- The description is whatever node sits under `Description`. It need not be
  a string.
- A missing summary is a plain `KeyError` (`MissingKey`).
- `status` and each event's `detail` are kept as tree nodes. The code never
  checks that they are strings. `status == 'DELIVERED'` is then a comparison
  of nodes.

## Model

| member | source | states |
|---|---|---|
| `UspsClassify.Shape13` | packagetrack/service/usps_interface.py:28-29 | the 13-character test: `x[0:2].isalpha()`, `x[2:9].isdigit()` and `x[11:13].isalpha()`, built from `Slice`, `IsAlpha` and `IsDigit`; `Identify13` gives its index-wise form |
| `UspsClassify.Shape20` | packagetrack/service/usps_interface.py:30-31 | the 20-character test: `x.isdigit()` and `x.startswith('0')`; `Identify20` gives its index-wise form |
| `UspsClassify.Shape22` | packagetrack/service/usps_interface.py:32-33 | the 22-character test: `x.isdigit()`, `x.startswith('9')` and not `x.startswith('96')`; `Identify22` gives its index-wise form |
| `UspsClassify.Identify13` | packagetrack/service/usps_interface.py:28-29 | at length 13: accepted iff indices 0-1 are letters, 2-8 digits and 11-12 letters |
| `UspsClassify.Identify13IgnoresIndices9And10` | packagetrack/service/usps_interface.py:28-29 | two 13-character numbers that differ only at indices 9 and 10 get the same verdict |
| `UspsClassify.Identify20` | packagetrack/service/usps_interface.py:30-31 | at length 20: accepted iff all digits and the first is '0' |
| `UspsClassify.Identify22` | packagetrack/service/usps_interface.py:32-33 | at length 22: accepted iff all digits, the first is '9' and the second is not '6' |
| `UspsClassify.IdentifyAccepts13` | packagetrack/service/usps_interface.py:28-29 | "EC123456789US" is accepted |
| `UspsClassify.IdentifyAccepts20` | packagetrack/service/usps_interface.py:30-31 | a 20-digit number starting with '0' is accepted |
| `UspsClassify.IdentifyAccepts22` | packagetrack/service/usps_interface.py:32-33 | a 22-digit number starting with "90" is accepted |
| `UspsClassify.IdentifyRejects13` | packagetrack/service/usps_interface.py:28-29 | a digit at index 1 is refused |
| `UspsClassify.IdentifyRejects20` | packagetrack/service/usps_interface.py:30-31 | a 20-digit number starting with '1' is refused |
| `UspsClassify.IdentifyRejects22` | packagetrack/service/usps_interface.py:32-33 | a 22-digit number starting with "96" is refused |
| `UspsClassify.Validate` | packagetrack/service/usps_interface.py:131-134 | every number is valid |
| `PyStr.Slice` | packagetrack/service/usps_interface.py:29 | `s[lo:hi]` with both ends clamped to the length: the slice is empty when `hi <= lo` or `lo >= len(s)`, is otherwise `min(hi, len(s)) - lo` long, and holds `s[lo + i]` at each index `i` |
| `PyStr.IsAlpha` | packagetrack/service/usps_interface.py:29 | `s.isalpha()`: non-empty and `All(s, IsLetter)`; with `AllIff`, every index holds an ASCII letter |
| `PyStr.IsDigit` | packagetrack/service/usps_interface.py:29-33 | `s.isdigit()`: non-empty and `All(s, IsDigitChar)`; with `AllIff`, every index holds an ASCII digit |
| `PyStr.StartsWith` | packagetrack/service/usps_interface.py:31-33 | `s.startswith(prefix)`: the prefix is no longer than `s` and equals its first characters |
| `PyStr.Join` | packagetrack/service/usps_interface.py:163-167 | `sep.join(parts)`: the parts with `sep` between neighbours; `JoinThree` gives the three-part form the location uses, and `SplitJoin` shows splitting undoes it |
| `PyStr.AllIff` | packagetrack/service/usps_interface.py:29-33 | the character-by-character check of `isalpha`/`isdigit` holds iff every index passes |
| `PyStr.SplitJoin` | packagetrack/service/usps_interface.py:163-167 | splitting on a separator recovers the parts it joined, when no part contains it |
| `UspsService.ServiceOfNumber` | packagetrack/service/usps_interface.py:77-78 | the service is the table entry for the first two characters, and "USPS" when there is none or the number is shorter than two |
| `UspsService.ServiceExamples` | packagetrack/service/usps_interface.py:17-24 | "EA…" is express mail; "ZZ…" and "E" fall back to "USPS" |
| `UspsRequest.BuildRequest` | packagetrack/service/usps_interface.py:41-45 | the request's length is that of the fixed template plus the two values |
| `UspsRequest.ReadFieldsRoundTrip` | packagetrack/service/usps_interface.py:44-45 | not in the source: the generic round trip behind `RequestRoundTrip`; both values come back when the middle part starts with a quote and the first value holds none |
| `UspsRequest.RequestRoundTrip` | packagetrack/service/usps_interface.py:44-45 | the user id and the tracking number can be read back from the request when the user id has no quote |
| `UspsRequest.QuoteInUseridIsNotRecovered` | packagetrack/service/usps_interface.py:44-45 | the values are not escaped, so a quote in the user id is not recovered |
| `ResponseTree.Get` | packagetrack/service/usps_interface.py:52 | `n[key]` succeeds iff `n` is a dict holding `key`; otherwise it is a KeyError on a dict and a TypeError on anything else |
| `ResponseTree.PyContains` | packagetrack/service/usps_interface.py:51 | `key in n` on a dict is key membership; on a string it is a substring test, so the key is no longer than the text |
| `ResponseTree.Truthy` | packagetrack/service/usps_interface.py:152 | a node is false exactly when it is the empty string, the empty dict or the empty list |
| `PyStr.Contains` | packagetrack/service/usps_interface.py:51 | a substring is never longer than the string holding it |
| `UspsClassify.Identify` | packagetrack/service/usps_interface.py:26-34 | only numbers of length 13, 20 or 22 can be accepted |
| `UspsService.ServiceDescription` | packagetrack/service/usps_interface.py:78 | the lookup returns the table entry for a known code, and "USPS" exactly when the code is unknown |
| `UspsService.ServiceOf` | packagetrack/service/usps_interface.py:77-78 | the service of any number is a table description or "USPS"; the lookup never fails |
| `UspsRequest.ReadFields` | packagetrack/service/usps_interface.py:44-45 | not in the source: the generic reader behind `ReadRequest`, over any template of the line-44 shape; what it reads rebuilds the text, and the first value holds no quote |
| `UspsRequest.ReadRequest` | packagetrack/service/usps_interface.py:44-45 | not in the source: an inverse reader for the request; whatever it reads back rebuilds the same request, and the user id it reads holds no quote |
| `UspsDerive.CountryOrUS` | packagetrack/service/usps_interface.py:166 | the country used is never empty: the given country when it is non-empty, otherwise "US" |
| `UspsDecode.ResultNode` | packagetrack/service/usps_interface.py:56 | `rsp['TrackResponse']['TrackInfo']` succeeds iff both levels are dicts holding those keys, and yields the inner node |
| `UspsDecode.ErrorDescription` | packagetrack/service/usps_interface.py:56-57 | `n['Error']['Description']` succeeds iff both levels are dicts holding those keys; its failure is never a carrier-reported error |
| `UspsDecode.Details` | packagetrack/service/usps_interface.py:60-67 | the detail list is defined iff the result node is a dict; it is empty when `TrackDetail` is absent, the list itself when it is a list, and a one-element list otherwise |
| `UspsDecode.SyntheticEvents` | packagetrack/service/usps_interface.py:92-97 | at most one synthetic event, present exactly when the status is DELIVERED, holding the last update, the last location and DELIVERED |
| `UspsDecodeExamples.DecodeSucceeds` | packagetrack/service/usps_interface.py:47-109 | a reply decodes when neither error node is present, the summary yields a date, a location and an `Event`, and every detail node decodes |
| `UspsDecodeExamples.ExampleLocations` | packagetrack/service/usps_interface.py:159-167 | city AUSTIN, state TX and an empty country give "AUSTIN,TX,US" |
| `UspsDecodeExamples.ExampleDates` | packagetrack/service/usps_interface.py:148-156 | an empty time gives midnight of the parsed date; a non-empty time is combined with it |
| `UspsDecodeExamples.ExampleCarrierEvents` | packagetrack/service/usps_interface.py:99-107 | one detail node gives one event with its location, date and `Event` text |
| `UspsDecodeExamples.DeliveredWithOneDetail` | packagetrack/service/usps_interface.py:47-109 | a DELIVERED reply with one detail node decodes to two events, the synthetic delivery first, with "US" for the empty country and the service of prefix EA |
| `UspsDerive.TrackingDate` | packagetrack/service/usps_interface.py:148-156 | on success the date is the parse of `EventDate`, and the time is the parse of `EventTime`, or midnight when `EventTime` is empty; conversely, a parseable date with an empty time gives midnight of that date, and one with a parseable non-empty time gives the two combined |
| `UspsDerive.UnparsableDateFails` | packagetrack/service/usps_interface.py:151 | an `EventDate` the parser rejects fails with that text |
| `UspsDerive.UnparsableTimeFails` | packagetrack/service/usps_interface.py:152-153 | a non-empty `EventTime` the parser rejects fails with that text |
| `UspsDerive.TrackingLocation` | packagetrack/service/usps_interface.py:159-167 | succeeds iff city, state and country are present and strings (an empty country excepted); the result is city,state,country with "US" for an empty country |
| `UspsDerive.LocationSplitsBack` | packagetrack/service/usps_interface.py:163-167 | a comma-free city, state and country come back from the location by splitting on commas |
| `UspsDecode.EventOf` | packagetrack/service/usps_interface.py:100-106 | a detail node decodes iff its location, its date and its `Event` field can be had, and the event is then exactly those three; a failure is never a carrier-reported error |
| `UspsDecode.CarrierEvents` | packagetrack/service/usps_interface.py:99-107 | one event per detail node in the same order; succeeds iff every node decodes; a failure is the failure of some node |
| `UspsDecode.CarrierEventsStopsAt` | packagetrack/service/usps_interface.py:99-107 | the first node that fails decides the failure |
| `UspsDecode.Decode` | packagetrack/service/usps_interface.py:76-88 | a decoded record echoes the number, has delivery date equal to last update, no delivery detail, and the service of the number's prefix |
| `UspsDecode.AppendCarrierEvents` | packagetrack/service/usps_interface.py:99-107 | the loop appends exactly the carrier events after the existing ones, changes nothing else, or fails as the first bad node does |
| `UspsDecode.ParseResponse` | packagetrack/service/usps_interface.py:47-109 | the object built and filled step by step equals the record `Decode` specifies, and it fails exactly when `Decode` fails, with the same error |
| `TrackingData.TrackingInfo.constructor` | packagetrack/service/usps_interface.py:80-88 | a new record holds the given fields and no events |
| `TrackingData.TrackingInfo.AddEvent` | packagetrack/service/usps_interface.py:93-97 | appends one event and changes nothing else |
| `UspsDecodeLemmas.SystemErrorTakesPrecedence` | packagetrack/service/usps_interface.py:50-53 | a top-level `Error` fails with its description, whatever the result node holds |
| `UspsDecodeLemmas.ResultErrorWhenNoSystemError` | packagetrack/service/usps_interface.py:55-58 | without a top-level error, an `Error` in the result node fails with its own description |
| `UspsDecodeLemmas.TrackFailedComesFromAnErrorNode` | packagetrack/service/usps_interface.py:50-58 | every carrier-reported failure carries the description of the top-level error, or, when there is none, of the result node's error |
| `UspsDecodeLemmas.DecodedSummary` | packagetrack/service/usps_interface.py:69-75 | a decoded reply has a summary whose `Event` is the status verbatim and whose date and location are the last update and location |
| `UspsDecodeLemmas.DecodedEvents` | packagetrack/service/usps_interface.py:90-107 | for a decoded reply with result node `info` and normalised detail list `details`: events number n+1 when the status is DELIVERED (the first being last update, location and status) and n otherwise; the rest are the detail nodes' events in order |
| `UspsDecodeLemmas.DecodedEventsSplit` | packagetrack/service/usps_interface.py:90-107 | a decoded timeline is the synthetic part followed by the events of the normalised detail list, all of which decode |
| `UspsDecodeLemmas.TimelineLayout` | packagetrack/service/usps_interface.py:92-107 | the synthetic part then the carrier events put each detail node's event one place later exactly when the status is DELIVERED |
| `UspsDecodeLemmas.EventsLayout` | packagetrack/service/usps_interface.py:90-107 | a record whose events are the synthetic part followed by the per-node events has the layout `DecodedEvents` states |
| `UspsDecodeLemmas.TimelineHead` | packagetrack/service/usps_interface.py:92-97 | the synthetic delivery event, present exactly when the status is DELIVERED, is the first event and adds one to the count |
| `UspsDecodeLemmas.ErrorReadsAlike` | packagetrack/service/usps_interface.py:50-58 | `'Error' in n` and `n['Error']['Description']` depend only on the `Error` field of `n` |
| `UspsDecodeLemmas.DecodeReadsOnly` | packagetrack/service/usps_interface.py:47-109 | two replies whose error checks, result-node errors, detail lists and summaries agree decode to the same result |
| `UspsDecodeLemmas.SameDetailsDecodeAlike` | packagetrack/service/usps_interface.py:60-67 | replies that differ only in a detail field normalising to the same list decode identically |
| `UspsDecodeLemmas.AbsentDetailIsEmptyList` | packagetrack/service/usps_interface.py:61-64 | a missing `TrackDetail` decodes exactly as an empty list |
| `UspsDecodeLemmas.SingleDetailIsOneElementList` | packagetrack/service/usps_interface.py:66-67 | a single `TrackDetail` node decodes exactly as a one-element list |

## Left out

- `track` and `_send_request` are left out. They perform the HTTP GET and the
  URL quoting, and they pick the server from the `api_url` table by global
  configuration. All of that is network I/O and global configuration.
- `xml_to_dict` is not part of this model. Its output, a tree of dicts,
  lists and strings, is the decoder's input.
- `datetime.strptime` is not modelled. The formats "%B %d, %Y" and
  "%I:%M %p" arrive as a parameter (`DateTimes.Parsers`) that may reject
  text. Locale month names and the 12-hour to 24-hour conversion are
  therefore not modelled. Only the midnight default and the combining of
  date and time are.
- `packagetrack.config` is left out. The user id is a parameter of
  `BuildRequest`.
- `url` is left out. It is a constant template with nothing to prove.
- The commented-out checksum in `validate` is dead code, so it is left out.
  `Validate` accepts everything, as the code does.
- The internals of `TrackingInfo` and `addEvent` are not part of this model.
  The class holds the constructor's fields and an event list that `AddEvent`
  appends to, in call order.
- `str.isalpha` and `str.isdigit` are modelled on ASCII letters and digits.
  Other Unicode letters and digits are not covered.
- Lines 100-101 call `_getTrackingLocation(e)` twice and discard both
  results before line 104 calls it again. The function is pure and fails the
  same way each time, so the model calls it once per node.
- `_parse_response` appears as two methods: `ParseResponse` and the loop
  `AppendCarrierEvents` that it calls. Together they do what the single
  Python method does.
