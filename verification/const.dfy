/** The integration's constants: the cloud endpoints, the output mode and state codes
    the set-output command takes, and the two lookup tables that name probes and
    outputs. */
module Const {
  import opened PyJson

  const Domain := "klereo"

  const ApiUrlBase := "https://connect.klereo.fr/php"
  const ApiUrlLogin := ApiUrlBase + "/GetJWT.php"
  const ApiUrlGetIndex := ApiUrlBase + "/GetIndex.php"
  const ApiUrlGetPoolDetails := ApiUrlBase + "/GetPoolDetails.php"
  const ApiUrlSetOut := ApiUrlBase + "/SetOut.php"
  const ApiUrlSetParam := ApiUrlBase + "/SetParam.php"

  const ScanIntervalMinutes := 5

  /** Output modes. */
  const OutModeMan := 0
  const OutModeTimeSlots := 1
  const OutModeTimer := 2
  const OutModeRegul := 3

  /** Output states. */
  const OutStateOff := 0
  const OutStateOn := 1

  /** What SENSOR_TYPES records for one probe type: display name, unit, device class. */
  datatype SensorDef = SensorDef(name: string, unit: Option<string>, deviceClass: Option<string>)

  const SensorTypes: map<int, SensorDef> := map[
    0 := SensorDef("Technical Room Temperature", Some("°C"), Some("temperature")),
    1 := SensorDef("Air Temperature", Some("°C"), Some("temperature")),
    2 := SensorDef("Water Level", Some("%"), None),
    3 := SensorDef("pH", None, None),
    4 := SensorDef("Redox", Some("mV"), Some("voltage")),
    5 := SensorDef("Water Temperature", Some("°C"), Some("temperature")),
    6 := SensorDef("Filter Pressure", Some("mbar"), Some("pressure")),
    10 := SensorDef("Generic", Some("%"), None),
    11 := SensorDef("Flow", Some("m³/h"), None),
    12 := SensorDef("Container Level", Some("%"), None),
    13 := SensorDef("Cover Position", Some("%"), None),
    14 := SensorDef("Chlorine", Some("mg/L"), None)
  ]

  const OutputNames: map<int, string> := map[
    0 := "Lighting",
    1 := "Filtration",
    2 := "pH Corrector",
    3 := "Disinfectant",
    4 := "Heating",
    5 := "Aux 1",
    6 := "Aux 2",
    7 := "Aux 3",
    8 := "Flocculant",
    9 := "Aux 4",
    10 := "Aux 5",
    11 := "Aux 6",
    12 := "Aux 7",
    13 := "Aux 8",
    14 := "Aux 9",
    15 := "Hybrid Disinfectant"
  ]

  /** Every output channel 0..15 has a name, and no other index has one. */
  lemma OutputNamesCoverChannels()
    ensures forall i: int :: i in OutputNames <==> 0 <= i <= 15
  {
  }

  /** Probe types 0..6 and 10..14 are named; 7, 8, 9 and every other type are not. */
  lemma SensorTypesDomain()
    ensures forall t: int :: t in SensorTypes <==> (0 <= t <= 6 || 10 <= t <= 14)
  {
  }

  /** The four output modes are the distinct codes 0..3; off and on are 0 and 1. */
  lemma ModeAndStateCodes()
    ensures [OutModeMan, OutModeTimeSlots, OutModeTimer, OutModeRegul] == [0, 1, 2, 3]
    ensures OutStateOff == 0 && OutStateOn == 1
  {
  }

  /** Each endpoint is the base URL followed by its own script name, and no two
      endpoints are the same. */
  lemma EndpointsDistinct()
    ensures ApiUrlLogin == ApiUrlBase + "/GetJWT.php"
    ensures ApiUrlGetIndex == ApiUrlBase + "/GetIndex.php"
    ensures ApiUrlGetPoolDetails == ApiUrlBase + "/GetPoolDetails.php"
    ensures ApiUrlSetOut == ApiUrlBase + "/SetOut.php"
    ensures ApiUrlSetParam == ApiUrlBase + "/SetParam.php"
    ensures ApiUrlLogin != ApiUrlGetIndex && ApiUrlLogin != ApiUrlGetPoolDetails
    ensures ApiUrlLogin != ApiUrlSetOut && ApiUrlLogin != ApiUrlSetParam
    ensures ApiUrlGetIndex != ApiUrlGetPoolDetails && ApiUrlGetIndex != ApiUrlSetOut
    ensures ApiUrlGetIndex != ApiUrlSetParam && ApiUrlGetPoolDetails != ApiUrlSetOut
    ensures ApiUrlGetPoolDetails != ApiUrlSetParam && ApiUrlSetOut != ApiUrlSetParam
  {
    var n := |ApiUrlBase|;
    assert ApiUrlLogin[n + 4] == 'J' && ApiUrlGetIndex[n + 4] == 'I';
    assert ApiUrlGetPoolDetails[n + 4] == 'P' && ApiUrlSetOut[n + 4] == 'O' && ApiUrlSetParam[n + 4] == 'P';
    assert ApiUrlLogin[n + 1] == 'G' && ApiUrlSetOut[n + 1] == 'S';
    assert ApiUrlGetPoolDetails[n + 1] == 'G' && ApiUrlSetParam[n + 1] == 'S';
  }
}
