/**
 * Command translation of the Pure A9 device driver (drivers/electrolux-pure-a9/device.js,
 * setDeviceOpts and the flow_* wrappers): a partial local intent becomes an ordered list of
 * property patches for the cloud twin, which are then sent one by one.
 */
module Commands {
  import opened Wrappers

  /** A partial set of local capability values submitted together; None = field not in the intent. */
  datatype Intent = Intent(
    onoff: Option<bool>,         // onoff
    smartMode: Option<string>,   // SMART_mode ("smart" or "manual")
    light: Option<bool>,         // LIGHT_onoff
    lock: Option<bool>,          // LOCK_onoff
    ionizer: Option<bool>,       // IONIZER_onoff
    fanSpeed: Option<int>)       // FAN_speed

  const NoChange: Intent := Intent(None, None, None, None, None, None)

  /** The values the cloud accepts for its WorkMode property. */
  datatype WorkMode = Auto | Manual | PowerOff

  /** One property patch sent to the twin by one sendDeviceCommand call. */
  datatype Command =
    | SetWorkMode(mode: WorkMode)         // { WorkMode }
    | SetManualFan(fanspeed: int)         // { WorkMode: "Manual", Fanspeed }
    | SetLedRingLight(on: bool)           // { LedRingLight }
    | SetSafetyLock(on: bool)             // { SafetyLock }
    | SetIonizer(on: bool)                // { Ionizer }

  /** A value in a property patch, as it appears in the JSON body. */
  datatype PropValue = Text(text: string) | Number(number: int) | Flag(flag: bool)

  function WorkModeName(m: WorkMode): string
  {
    match m
    case Auto => "Auto"
    case Manual => "Manual"
    case PowerOff => "PowerOff"
  }

  /** The keys and values of the patch a command sends. */
  function Payload(c: Command): (p: map<string, PropValue>)
    ensures "WorkMode" in p <==> c.SetWorkMode? || c.SetManualFan?
    ensures "Fanspeed" in p <==> c.SetManualFan?
  {
    match c
    case SetWorkMode(m) => map["WorkMode" := Text(WorkModeName(m))]
    case SetManualFan(f) => map["WorkMode" := Text("Manual"), "Fanspeed" := Number(f)]
    case SetLedRingLight(b) => map["LedRingLight" := Flag(b)]
    case SetSafetyLock(b) => map["SafetyLock" := Flag(b)]
    case SetIonizer(b) => map["Ionizer" := Flag(b)]
  }

  /** The WorkMode a text value names, if any. */
  function WorkModeNamed(s: string): (m: Option<WorkMode>)
    ensures m.Some? ==> WorkModeName(m.value) == s
  {
    if s == "Auto" then Some(Auto)
    else if s == "Manual" then Some(Manual)
    else if s == "PowerOff" then Some(PowerOff)
    else None
  }

  /** Reads a patch back as the command that sends it; None for a patch no command sends. */
  function Decode(p: map<string, PropValue>): (r: Option<Command>)
    ensures r.Some? ==> Payload(r.value) == p
  {
    if p.Keys == {"WorkMode", "Fanspeed"} && p["WorkMode"] == Text("Manual") && p["Fanspeed"].Number? then
      Some(SetManualFan(p["Fanspeed"].number))
    else if p.Keys == {"WorkMode"} && p["WorkMode"].Text? && WorkModeNamed(p["WorkMode"].text).Some? then
      Some(SetWorkMode(WorkModeNamed(p["WorkMode"].text).value))
    else if p.Keys == {"LedRingLight"} && p["LedRingLight"].Flag? then
      Some(SetLedRingLight(p["LedRingLight"].flag))
    else if p.Keys == {"SafetyLock"} && p["SafetyLock"].Flag? then
      Some(SetSafetyLock(p["SafetyLock"].flag))
    else if p.Keys == {"Ionizer"} && p["Ionizer"].Flag? then
      Some(SetIonizer(p["Ionizer"].flag))
    else None
  }

  /** Every patch reads back as the command that produced it: the key names and the values of
      the patch carry the command's kind and argument exactly. */
  lemma PayloadRoundTrip(c: Command)
    ensures Decode(Payload(c)) == Some(c)
  {
  }

  /** Two different commands never send the same patch. */
  lemma PayloadInjective(a: Command, b: Command)
    requires Payload(a) == Payload(b)
    ensures a == b
  {
    PayloadRoundTrip(a);
    PayloadRoundTrip(b);
  }

  /** Mode selected by SMART_mode: only the exact string "manual" selects manual. */
  function ModeOf(smartMode: Option<string>): (m: WorkMode)
    ensures m != PowerOff
    ensures m == Manual <==> smartMode == Some("manual")
  {
    if smartMode == Some("manual") then Manual else Auto
  }

  /** The cloud fan integer for a local FAN_speed: floor(FAN_speed / 10 - 1), raised to at least 1.
      From 20 up it is the level whose local speed 10 * (level + 1) is the largest not above FAN_speed. */
  function Fanspeed(fanSpeed: int): (f: int)
    ensures f >= 1
    ensures fanSpeed >= 20 ==> 10 * (f + 1) <= fanSpeed < 10 * (f + 2)
    ensures fanSpeed < 20 ==> f == 1
  {
    var f := fanSpeed / 10 - 1;
    if f < 1 then 1 else f
  }

  /** The command a FAN_speed value produces: power off at or below 0, otherwise manual mode at a fan level. */
  function FanCommand(fanSpeed: int): (c: Command)
    ensures c.SetWorkMode? <==> fanSpeed <= 0
    ensures c.SetWorkMode? ==> c.mode == PowerOff
    ensures c.SetManualFan? ==> c.fanspeed >= 1
  {
    if fanSpeed <= 0 then SetWorkMode(PowerOff) else SetManualFan(Fanspeed(fanSpeed))
  }

  /** Power/mode part: onoff wins; SMART_mode alone sends its own WorkMode. */
  function PowerModeCommands(i: Intent): seq<Command>
  {
    if i.onoff.Some? then
      [SetWorkMode(if i.onoff.value then ModeOf(i.smartMode) else PowerOff)]
    else if i.smartMode.Some? then
      [SetWorkMode(ModeOf(i.smartMode))]
    else
      []
  }

  function ToggleCommands(i: Intent): seq<Command>
  {
    (if i.light.Some? then [SetLedRingLight(i.light.value)] else [])
    + (if i.lock.Some? then [SetSafetyLock(i.lock.value)] else [])
    + (if i.ionizer.Some? then [SetIonizer(i.ionizer.value)] else [])
  }

  function FanCommands(i: Intent): seq<Command>
  {
    if i.fanSpeed.Some? then [FanCommand(i.fanSpeed.value)] else []
  }

  /** The commands setDeviceOpts sends for an intent, in sending order. */
  function Translate(i: Intent): (cmds: seq<Command>)
    ensures |cmds| == PowerModeCount(i) + Present(i.light) + Present(i.lock) + Present(i.ionizer)
                      + Present(i.fanSpeed)
    ensures cmds == [] <==> i == NoChange
  {
    PowerModeCommands(i) + ToggleCommands(i) + FanCommands(i)
  }

  // ---------------------------------------------------------------------------------------
  // Properties of the translation

  function Present<T>(o: Option<T>): nat
  {
    if o.Some? then 1 else 0
  }

  /** Relative position of the toggle commands (the three middle steps of setDeviceOpts). */
  function Slot(c: Command): nat
  {
    match c
    case SetLedRingLight(_) => 1
    case SetSafetyLock(_) => 2
    case SetIonizer(_) => 3
    case _ => 0
  }

  /** Between positions lo and hi only toggle commands stand, in strictly increasing slot order. */
  predicate TogglesAscending(cmds: seq<Command>, lo: int, hi: int)
  {
    0 <= lo <= hi <= |cmds| && Ascending(cmds[lo..hi])
  }

  /** Only toggle commands, in strictly increasing slot order. */
  predicate Ascending(s: seq<Command>)
  {
    forall j, k :: 0 <= j < k < |s| ==> 0 < Slot(s[j]) < Slot(s[k])
  }

  /** Number of power/mode commands: one when onoff or SMART_mode is present, never two. */
  function PowerModeCount(i: Intent): nat
  {
    if i.onoff.Some? || i.smartMode.Some? then 1 else 0
  }

  /** The WorkMode an intent asks for when it carries onoff or SMART_mode. */
  function RequestedMode(i: Intent): WorkMode
  {
    if i.onoff == Some(false) then PowerOff else ModeOf(i.smartMode)
  }

  /** Power and mode coupling: an intent with onoff starts with one WorkMode command, PowerOff
      whenever onoff is false whatever SMART_mode says; SMART_mode alone sends its own command. */
  lemma PowerModeFirst(i: Intent)
    requires i.onoff.Some? || i.smartMode.Some?
    ensures |Translate(i)| >= 1
    ensures i.onoff == Some(false) ==> Translate(i)[0] == SetWorkMode(PowerOff)
    ensures i.onoff == Some(true) && i.smartMode == Some("manual") ==> Translate(i)[0] == SetWorkMode(Manual)
    ensures i.onoff == Some(true) && i.smartMode != Some("manual") ==> Translate(i)[0] == SetWorkMode(Auto)
    ensures i.onoff.None? ==>
      Translate(i)[0] == SetWorkMode(if i.smartMode.value == "manual" then Manual else Auto)
  {
    assert Translate(i)[0] == PowerModeCommands(i)[0];
  }

  /** The layout of the command list: at most one power/mode command first, then the toggles
      (light, lock, ionizer) in that order, each exactly when present and carrying its value,
      then the fan command last. */
  lemma TranslateLayout(i: Intent)
    ensures |Translate(i)| == PowerModeCount(i) + Present(i.light) + Present(i.lock) + Present(i.ionizer)
                              + Present(i.fanSpeed)
    ensures PowerModeCount(i) == 1 ==> Translate(i)[0] == SetWorkMode(RequestedMode(i))
    ensures i.fanSpeed.Some? ==> Translate(i)[|Translate(i)| - 1] == FanCommand(i.fanSpeed.value)
    ensures TogglesAscending(Translate(i), PowerModeCount(i), |Translate(i)| - Present(i.fanSpeed))
  {
    var p, t := PowerModeCommands(i), ToggleCommands(i);
    var f := FanCommands(i);
    var cmds := Translate(i);
    assert cmds == p + t + f;
    assert |p| == (if i.onoff.Some? || i.smartMode.Some? then 1 else 0);
    assert |p| == 1 ==> p[0] == SetWorkMode(RequestedMode(i)) && cmds[0] == p[0];
    assert |f| == Present(i.fanSpeed);
    ToggleOrder(i);
    AscendingInMiddle(p, t, f);
    assert |f| == 1 ==> cmds[|cmds| - 1] == f[0];
  }

  lemma AscendingInMiddle(p: seq<Command>, t: seq<Command>, f: seq<Command>)
    requires Ascending(t)
    ensures TogglesAscending(p + t + f, |p|, |p| + |t|)
  {
    assert (p + t + f)[|p|..|p| + |t|] == t;
  }

  lemma ToggleOrder(i: Intent)
    ensures var t := ToggleCommands(i);
      && |t| == Present(i.light) + Present(i.lock) + Present(i.ionizer)
      && Ascending(t)
  {
    var l := if i.light.Some? then [SetLedRingLight(i.light.value)] else [];
    var s := if i.lock.Some? then [SetSafetyLock(i.lock.value)] else [];
    var n := if i.ionizer.Some? then [SetIonizer(i.ionizer.value)] else [];
    var t := ToggleCommands(i);
    assert t == l + s + n;
    forall j | 0 <= j < |t|
      ensures Slot(t[j]) == if j < |l| then 1 else if j < |l| + |s| then 2 else 3
    {
      if j < |l| {
        assert t[j] == l[j];
      } else if j < |l| + |s| {
        assert t[j] == s[j - |l|];
      } else {
        assert t[j] == n[j - |l| - |s|];
      }
    }
  }

  /** Each toggle command is sent exactly when its field is present, carrying the field's value. */
  lemma TogglesCarryValues(i: Intent)
    ensures forall b :: SetLedRingLight(b) in Translate(i) <==> i.light == Some(b)
    ensures forall b :: SetSafetyLock(b) in Translate(i) <==> i.lock == Some(b)
    ensures forall b :: SetIonizer(b) in Translate(i) <==> i.ionizer == Some(b)
  {
    var p, t, f := PowerModeCommands(i), ToggleCommands(i), FanCommands(i);
    assert Translate(i) == p + t + f;
    assert forall c: Command :: c in p + f ==> c.SetWorkMode? || c.SetManualFan?;
    ToggleMembers(i);
  }

  lemma ToggleMembers(i: Intent)
    ensures forall b :: SetLedRingLight(b) in ToggleCommands(i) <==> i.light == Some(b)
    ensures forall b :: SetSafetyLock(b) in ToggleCommands(i) <==> i.lock == Some(b)
    ensures forall b :: SetIonizer(b) in ToggleCommands(i) <==> i.ionizer == Some(b)
  {
    var l := if i.light.Some? then [SetLedRingLight(i.light.value)] else [];
    var s := if i.lock.Some? then [SetSafetyLock(i.lock.value)] else [];
    var n := if i.ionizer.Some? then [SetIonizer(i.ionizer.value)] else [];
    assert ToggleCommands(i) == l + s + n;
  }

  /** Intent {onoff: false} gives exactly one PowerOff command whatever SMART_mode holds. */
  lemma PowerOffAlone(smartMode: Option<string>)
    ensures Translate(NoChange.(onoff := Some(false), smartMode := smartMode)) == [SetWorkMode(PowerOff)]
  {
  }

  /** Fan translation: at or below 0 the command is a bare PowerOff with no Fanspeed key; above 0
      it is manual mode with Fanspeed = max(1, floor(FAN_speed / 10) - 1). */
  lemma FanTranslation(v: int)
    ensures var cmds := Translate(NoChange.(fanSpeed := Some(v)));
      && |cmds| == 1
      && (v <= 0 ==> cmds[0] == SetWorkMode(PowerOff) && "Fanspeed" !in Payload(cmds[0]))
      && (v > 0 ==> cmds[0] == SetManualFan(if v / 10 - 1 >= 1 then v / 10 - 1 else 1)
                    && Payload(cmds[0])["WorkMode"] == Text("Manual"))
  {
  }

  /** Every Fanspeed that is sent is at least 1. */
  lemma SentFanspeedPositive(i: Intent)
    ensures forall c :: c in Translate(i) && "Fanspeed" in Payload(c) ==>
      Payload(c)["Fanspeed"].Number? && Payload(c)["Fanspeed"].number >= 1
  {
    forall c | c in Translate(i) && "Fanspeed" in Payload(c)
      ensures Payload(c)["Fanspeed"].number >= 1
    {
      assert c.SetManualFan?;
      assert c == FanCommand(i.fanSpeed.value);
    }
  }

  // ---------------------------------------------------------------------------------------
  // The flow cards (flow_*): fixed single-field intents

  function FlowSetFanSpeed(fanSpeed: int): (i: Intent)
    ensures i.fanSpeed == Some(fanSpeed) && i.(fanSpeed := None) == NoChange
  {
    NoChange.(fanSpeed := Some(fanSpeed))
  }

  function FlowEnableSmartMode(): (i: Intent)
    ensures i.smartMode == Some("smart") && i.(smartMode := None) == NoChange
  {
    NoChange.(smartMode := Some("smart"))
  }

  function FlowEnableIonizer(): (i: Intent)
    ensures i.ionizer == Some(true) && i.(ionizer := None) == NoChange
  {
    NoChange.(ionizer := Some(true))
  }

  function FlowDisableIonizer(): (i: Intent)
    ensures i.ionizer == Some(false) && i.(ionizer := None) == NoChange
  {
    NoChange.(ionizer := Some(false))
  }

  /** What each flow card sends. */
  lemma FlowCommands(v: int)
    ensures Translate(FlowEnableSmartMode()) == [SetWorkMode(Auto)]
    ensures Translate(FlowEnableIonizer()) == [SetIonizer(true)]
    ensures Translate(FlowDisableIonizer()) == [SetIonizer(false)]
    ensures Translate(FlowSetFanSpeed(v)) == [FanCommand(v)]
  {
  }

  /** Worked examples: fan 0 powers off, fan 75 gives manual mode at level 6. */
  lemma FanExamples()
    ensures Translate(FlowSetFanSpeed(0)) == [SetWorkMode(PowerOff)]
    ensures Translate(FlowSetFanSpeed(75)) == [SetManualFan(6)]
    ensures Translate(FlowSetFanSpeed(10)) == [SetManualFan(1)]
  {
  }

  // ---------------------------------------------------------------------------------------
  // Sending

  /**
   * Sends the commands in order; accept(k) is the outcome of the k-th sendDeviceCommand call.
   * The first failing send aborts the rest (the awaited call throws); nothing is rolled back.
   * Returns the commands that were delivered and whether the whole batch went through.
   */
  method SendInOrder(cmds: seq<Command>, accept: nat -> bool) returns (delivered: seq<Command>, ok: bool)
    ensures |delivered| <= |cmds| && delivered == cmds[..|delivered|]
    ensures forall k :: 0 <= k < |delivered| ==> accept(k)
    ensures ok <==> |delivered| == |cmds|
    ensures !ok ==> !accept(|delivered|)
  {
    delivered := [];
    var k := 0;
    while k < |cmds|
      invariant k <= |cmds|
      invariant delivered == cmds[..k]
      invariant forall j :: 0 <= j < k ==> accept(j)
    {
      if !accept(k) {
        return delivered, false;
      }
      delivered := delivered + [cmds[k]];
      k := k + 1;
    }
    ok := true;
  }
}
