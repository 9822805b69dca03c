/** Inferring the mail service from the first two characters of the
    tracking number, since the carrier's reply never states it. */
module UspsService {
  import opened PyStr

  const ServiceTypes: map<string, string> := map[
    "EA" := "express mail",
    "EC" := "express mail international",
    "CP" := "priority mail international",
    "RA" := "registered mail",
    "RF" := "registered foreign"
  ]

  /** What an unknown code resolves to. */
  const DefaultService := "USPS"

  /** `service_types.get(code, 'USPS')` */
  function ServiceDescription(code: string): (d: string)
    ensures d == DefaultService <==> code !in ServiceTypes
    ensures code in ServiceTypes ==> d == ServiceTypes[code]
  {
    if code in ServiceTypes then ServiceTypes[code] else DefaultService
  }

  /** The service of a tracking number: the lookup of `num[0:2]`. */
  function ServiceOf(num: string): (d: string)
    ensures d in ServiceTypes.Values || d == DefaultService
  {
    ServiceDescription(Slice(num, 0, 2))
  }

  /** A number shorter than two characters cannot match any code. */
  lemma ServiceOfNumber(num: string)
    ensures ServiceOf(num) ==
              if |num| >= 2 && num[..2] in ServiceTypes then ServiceTypes[num[..2]] else "USPS"
  {
    if |num| >= 2 {
      assert Slice(num, 0, 2) == num[..2];
    } else {
      assert forall k :: k in ServiceTypes ==> |k| == 2;
    }
  }

  lemma ServiceExamples()
    ensures ServiceOf("EA123456789US") == "express mail"
    ensures ServiceOf("ZZ123456789US") == "USPS"
    ensures ServiceOf("E") == "USPS"
  {
    ServiceOfNumber("EA123456789US");
    assert "EA123456789US"[..2] == "EA";
    ServiceOfNumber("ZZ123456789US");
    assert "ZZ123456789US"[..2] == "ZZ";
    ServiceOfNumber("E");
  }
}
