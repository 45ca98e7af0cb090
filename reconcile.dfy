/**
 * Reconciliation of the Pure A9 device driver (drivers/electrolux-pure-a9/device.js, the tail of
 * onPoll and updateAppliance): a fetched appliance snapshot is classified first-match into one of
 * four unavailability reasons or into its reported properties, which are then mapped onto the
 * device's local capability values.
 */
module Reconcile {
  import opened Wrappers
  import opened Commands

  /** The reported-properties record of a twin (sensor values are integers in this model). */
  datatype Reported = Reported(
    co2: int, humidity: int, pm2_5: int, pm10: int, pm1: int, tvoc: int,
    envLightLvl: Option<int>,      // EnvLightLvl, may be missing
    temp: int, filterLife: int,
    workmode: string,              // Workmode: "Auto", "Manual", "PowerOff", ...
    fanspeed: int,                 // Fanspeed, the cloud fan integer
    ionizer: bool, uiLight: bool, safetyLock: bool)

  datatype Properties = Properties(reported: Option<Reported>)

  datatype Twin = Twin(connectionState: string, properties: Option<Properties>)

  /** One element of the account's appliance list. */
  datatype Appliance = Appliance(applianceId: string, twin: Option<Twin>)

  /** Why a device is marked unavailable, one per message of onPoll. */
  datatype Reason = NotInAccount | NoData | NotConnected | NoProperties

  /** The device's local capability values. */
  datatype Capabilities = Capabilities(
    onoff: bool, smartMode: string, fanSpeed: int,
    ionizer: bool, light: bool, lock: bool,
    co2: int, humidity: int, pm25: int, pm10: int, pm1: int, voc: int,
    luminance: int, temperature: int, filterLife: int)

  /** Lookup of a device by id in the cached appliance list (the first entry with that id). */
  function FindAppliance(list: seq<Appliance>, id: string): (r: Option<Appliance>)
    ensures r.Some? ==> r.value in list && r.value.applianceId == id
    ensures r.None? <==> forall a :: a in list ==> a.applianceId != id
    ensures r.Some? ==> exists j :: 0 <= j < |list| && list[j] == r.value && FirstWithId(list, id, j)
  {
    if list == [] then None
    else if list[0].applianceId == id then Some(list[0])
    else FindAppliance(list[1..], id)
  }

  /** No entry before position j has the id. */
  predicate FirstWithId(list: seq<Appliance>, id: string, j: int)
    requires 0 <= j <= |list|
  {
    forall m :: 0 <= m < j ==> list[m].applianceId != id
  }

  /** First-match classification of a looked-up snapshot. */
  function Classify(found: Option<Appliance>): (r: Result<Reported, Reason>)
    ensures r.Success? <==> found.Some? && Complete(found.value)
    ensures r.Success? ==> found.value.twin.value.properties.value.reported == Some(r.value)
  {
    if found.None? then Failure(NotInAccount)
    else if found.value.twin.None? then Failure(NoData)
    else if found.value.twin.value.connectionState != "Connected" then Failure(NotConnected)
    else if found.value.twin.value.properties.None?
         || found.value.twin.value.properties.value.reported.None? then Failure(NoProperties)
    else Success(found.value.twin.value.properties.value.reported.value)
  }

  /** A twin that is connected and carries a reported-properties record. */
  predicate Complete(a: Appliance)
  {
    && a.twin.Some?
    && a.twin.value.connectionState == "Connected"
    && a.twin.value.properties.Some?
    && a.twin.value.properties.value.reported.Some?
  }

  /** The device is set available exactly for a complete twin, and then receives its own
      reported record; every other snapshot yields the reason of the first check it fails. */
  lemma ClassifyFirstMatch(found: Option<Appliance>)
    ensures Classify(found).Success? <==> found.Some? && Complete(found.value)
    ensures Classify(found).Success? ==>
      Classify(found).value == found.value.twin.value.properties.value.reported.value
    ensures Classify(found) == Failure(NotInAccount) <==> found.None?
    ensures Classify(found) == Failure(NoData) <==> found.Some? && found.value.twin.None?
    ensures Classify(found) == Failure(NotConnected) <==>
      found.Some? && found.value.twin.Some? && found.value.twin.value.connectionState != "Connected"
    ensures Classify(found) == Failure(NoProperties) <==>
      found.Some? && found.value.twin.Some? && found.value.twin.value.connectionState == "Connected"
      && !Complete(found.value)
  {
  }

  /** A disconnected twin is "not connected" however well-formed its properties are, and a
      snapshot with no twin is "no data" whatever else it lacks. */
  lemma ClassifyPrecedence(id: string, state: string, props: Option<Properties>)
    ensures Classify(Some(Appliance(id, None))) == Failure(NoData)
    ensures state != "Connected" ==>
      Classify(Some(Appliance(id, Some(Twin(state, props))))) == Failure(NotConnected)
  {
  }

  /** The local FAN_speed for a reported Fanspeed. */
  function FanSpeedOf(fanspeed: int): (v: int)
    ensures v % 10 == 0
    ensures fanspeed >= 1 ==> v >= 20
    ensures fanspeed >= 1 ==> Fanspeed(v) == fanspeed
  {
    10 * (fanspeed + 1)
  }

  /** The value of measure_luminance: EnvLightLvl, or 0 when it is missing. */
  function Luminance(level: Option<int>): (r: int)
    ensures level.Some? ==> r == level.value
    ensures level.None? ==> r == 0
  {
    if level.Some? && level.value != 0 then level.value else 0
  }

  /** The capability values after updateAppliance has copied a reported record. */
  function ApplyReported(c: Capabilities, r: Reported): (c': Capabilities)
    ensures r.workmode == "Auto" || r.workmode == "Manual" ==>
      c'.onoff && c'.fanSpeed == 10 * (r.fanspeed + 1)
      && c'.smartMode == (if r.workmode == "Auto" then "smart" else "manual")
    ensures r.workmode != "Auto" && r.workmode != "Manual" ==>
      !c'.onoff && c'.fanSpeed == 0 && c'.smartMode == c.smartMode
    ensures c'.ionizer == r.ionizer && c'.light == r.uiLight && c'.lock == r.safetyLock
    ensures c'.luminance == (if r.envLightLvl.Some? then r.envLightLvl.value else 0)
    ensures c'.co2 == r.co2 && c'.humidity == r.humidity && c'.pm25 == r.pm2_5 && c'.pm10 == r.pm10
      && c'.pm1 == r.pm1 && c'.voc == r.tvoc && c'.temperature == r.temp && c'.filterLife == r.filterLife
  {
    WithToggles(WithMode(WithSensors(c, r), r), r)
  }

  /** Step 1 of updateAppliance: the sensor capabilities. */
  function WithSensors(c: Capabilities, r: Reported): (c': Capabilities)
    ensures c'.co2 == r.co2 && c'.humidity == r.humidity && c'.pm25 == r.pm2_5 && c'.pm10 == r.pm10
      && c'.pm1 == r.pm1 && c'.voc == r.tvoc && c'.temperature == r.temp && c'.filterLife == r.filterLife
    ensures c'.luminance == (if r.envLightLvl.Some? then r.envLightLvl.value else 0)
    ensures c'.(co2 := c.co2, humidity := c.humidity, pm25 := c.pm25, pm10 := c.pm10, pm1 := c.pm1,
                voc := c.voc, luminance := c.luminance, temperature := c.temperature,
                filterLife := c.filterLife) == c
  {
    c.(co2 := r.co2, humidity := r.humidity, pm25 := r.pm2_5, pm10 := r.pm10, pm1 := r.pm1,
       voc := r.tvoc, luminance := Luminance(r.envLightLvl), temperature := r.temp,
       filterLife := r.filterLife)
  }

  /** Step 2: power, mode and fan speed from Workmode and Fanspeed. */
  function WithMode(c: Capabilities, r: Reported): (c': Capabilities)
    ensures r.workmode == "Auto" || r.workmode == "Manual" ==>
      c'.onoff && c'.fanSpeed == FanSpeedOf(r.fanspeed)
      && c'.smartMode == (if r.workmode == "Auto" then "smart" else "manual")
    ensures r.workmode != "Auto" && r.workmode != "Manual" ==>
      !c'.onoff && c'.fanSpeed == 0 && c'.smartMode == c.smartMode
    ensures c'.(onoff := c.onoff, smartMode := c.smartMode, fanSpeed := c.fanSpeed) == c
  {
    if r.workmode == "Auto" then c.(onoff := true, smartMode := "smart", fanSpeed := FanSpeedOf(r.fanspeed))
    else if r.workmode == "Manual" then c.(onoff := true, smartMode := "manual", fanSpeed := FanSpeedOf(r.fanspeed))
    else c.(onoff := false, fanSpeed := 0)
  }

  /** Step 3: the three toggles. */
  function WithToggles(c: Capabilities, r: Reported): (c': Capabilities)
    ensures c'.ionizer == r.ionizer && c'.light == r.uiLight && c'.lock == r.safetyLock
    ensures c'.(ionizer := c.ionizer, light := c.light, lock := c.lock) == c
  {
    c.(ionizer := r.ionizer, light := r.uiLight, lock := r.safetyLock)
  }

  // ---------------------------------------------------------------------------------------
  // The fan scales: local FAN_speed and the cloud Fanspeed

  /** A reported Fanspeed of at least 1 survives a trip to the local scale and back. */
  lemma CloudLevelRoundTrip(fanspeed: int)
    requires fanspeed >= 1
    ensures Fanspeed(FanSpeedOf(fanspeed)) == fanspeed
  {
    assert 10 * (fanspeed + 1) / 10 == fanspeed + 1;
  }

  /** Local fan speeds 20, 30, ..., 100 (any multiple of 10 from 20 up) survive a trip to the
      cloud and back; other positive values come back rounded down to a multiple of 10, and
      everything below 20 comes back as 20. */
  lemma LocalSpeedRoundTrip(v: int)
    requires v > 0
    ensures v >= 20 ==> v - 10 < FanSpeedOf(Fanspeed(v)) <= v
    ensures v >= 20 && v % 10 == 0 ==> FanSpeedOf(Fanspeed(v)) == v
    ensures v < 20 ==> FanSpeedOf(Fanspeed(v)) == 20
  {
    if v >= 20 {
      assert Fanspeed(v) == v / 10 - 1;
      assert FanSpeedOf(Fanspeed(v)) == 10 * (v / 10);
    }
  }

  /** Worked example: Workmode "Auto" with Fanspeed 4 shows as on, smart, fan 50. */
  lemma AutoExample(c: Capabilities, r: Reported)
    requires r.workmode == "Auto" && r.fanspeed == 4
    ensures ApplyReported(c, r).onoff && ApplyReported(c, r).smartMode == "smart"
    ensures ApplyReported(c, r).fanSpeed == 50
  {
  }

  /** The partner of the translation: sending back the values a reported record produced asks the
      twin for the state it reported (mode, and the same fan level when that level is at least 1). */
  lemma ResendReconciled(c: Capabilities, r: Reported)
    ensures var c' := ApplyReported(c, r);
      var mode := if r.workmode == "Auto" then Auto else if r.workmode == "Manual" then Manual else PowerOff;
      && Translate(NoChange.(onoff := Some(c'.onoff), smartMode := Some(c'.smartMode))) == [SetWorkMode(mode)]
      && (mode == PowerOff ==> Translate(NoChange.(fanSpeed := Some(c'.fanSpeed))) == [SetWorkMode(PowerOff)])
      && (mode != PowerOff && r.fanspeed >= 1 ==>
            Translate(NoChange.(fanSpeed := Some(c'.fanSpeed))) == [SetManualFan(r.fanspeed)])
  {
    if (r.workmode == "Auto" || r.workmode == "Manual") && r.fanspeed >= 1 {
      CloudLevelRoundTrip(r.fanspeed);
    }
  }

  /** Sending the reconciled power, mode and fan speed together in one intent (as the debounced
      capability listener can) ends in manual mode even when the twin reported "Auto": the fan
      command comes last and always selects "Manual". */
  lemma CombinedResendEndsManual(c: Capabilities, r: Reported)
    requires r.workmode == "Auto" && r.fanspeed >= 1
    ensures var c' := ApplyReported(c, r);
      var cmds := Translate(NoChange.(onoff := Some(c'.onoff), smartMode := Some(c'.smartMode),
                                      fanSpeed := Some(c'.fanSpeed)));
      && cmds == [SetWorkMode(Auto), SetManualFan(r.fanspeed)]
      && Payload(cmds[|cmds| - 1])["WorkMode"] == Text("Manual")
  {
    CloudLevelRoundTrip(r.fanspeed);
  }
}
