/**
 * The Pure A9 device controller (drivers/electrolux-pure-a9/device.js, class
 * ElectroluxPureDevice): one object per air purifier, holding its capability values and
 * availability, sharing an account session through the registry, polling the cloud and
 * sending command batches.
 */
module PureA9 {
  import opened Wrappers
  import opened Commands
  import opened Reconcile
  import opened Sessions

  datatype Availability = Available | Unavailable(reason: Reason)

  /** How one poll tick ended for a device. */
  datatype PollOutcome =
    | Ignored        // deleted, no device id, or no username configured
    | BackedOff      // inside the account's failure back-off window
    | FetchFailed    // the account-wide list fetch failed
    | NoCache        // no appliance list cached for the account
    | Reconciled     // the cached list was consulted and the device updated or marked unavailable

  /** The outcome of a tick for a configured device whose session starts from v. */
  function OutcomeOf(v: SessionView, now: int, fetch: FetchResult): (o: PollOutcome)
    ensures o != Ignored
    ensures o == BackedOff <==> InBackoff(v, now)
    ensures o == Reconciled <==>
      (!InBackoff(v, now) && !(FetchDue(v, now) && fetch.FetchError?)
       && (v.appliances.Some? || (FetchDue(v, now) && fetch.Listed?)))
  {
    match TickStageOf(v, now, fetch)
    case Hold => BackedOff
    case Failed => FetchFailed
    case Proceed => if SessionAfterTick(v, now, fetch).appliances.Some? then Reconciled else NoCache
  }

  /** A tick in back-off or with a failed fetch never reaches reconciliation; one that does
      reconcile always has a cached list to consult. */
  lemma OutcomeStages(v: SessionView, now: int, fetch: FetchResult)
    ensures InBackoff(v, now) ==> OutcomeOf(v, now, fetch) == BackedOff
    ensures OutcomeOf(v, now, fetch) == FetchFailed <==>
      !InBackoff(v, now) && FetchDue(v, now) && fetch.FetchError?
    ensures OutcomeOf(v, now, fetch) == Reconciled ==> SessionAfterTick(v, now, fetch).appliances.Some?
    ensures OutcomeOf(v, now, fetch) == NoCache ==> v.appliances.None? && !FetchDue(v, now)
  {
  }

  /** Capabilities and availability after consulting the looked-up snapshot. */
  function AfterReconcile(c: Capabilities, found: Option<Appliance>): (r: (Capabilities, Availability))
    ensures r.1 == Available <==> found.Some? && Complete(found.value)
    ensures r.1 == Available ==> r.0 == ApplyReported(c, found.value.twin.value.properties.value.reported.value)
    ensures r.1.Unavailable? ==> r.0 == c && r.1 == Unavailable(Classify(found).error)
  {
    ClassifyFirstMatch(found);
    match Classify(found)
    case Failure(reason) => (c, Unavailable(reason))
    case Success(props) => (ApplyReported(c, props), Available)
  }

  class Device {
    const deviceId: string       // getData().id; "" when missing
    const username: string       // getSettings().username; "" when not configured
    const password: string       // getSettings().password
    const registry: Registry     // the module-level apis map, shared by all devices
    var deleted: bool
    var caps: Capabilities
    var availability: Availability
    var repollsScheduled: nat    // follow-up polls requested by command batches

    /** availability is whatever the host restored for the device; the driver does not set it
        on initialisation. */
    constructor (deviceId: string, username: string, password: string, registry: Registry,
                 caps: Capabilities, availability: Availability)
      ensures this.deviceId == deviceId && this.username == username && this.password == password
      ensures this.registry == registry && this.caps == caps && this.availability == availability
      ensures !deleted && repollsScheduled == 0
    {
      this.deviceId, this.username, this.password, this.registry := deviceId, username, password, registry;
      this.caps, this.availability := caps, availability;
      deleted, repollsScheduled := false, 0;
    }

    method OnDeleted()
      modifies this`deleted
      ensures deleted
    {
      deleted := true;
    }

    /**
     * Translates the intent and sends its commands in order; accept(k) is the outcome of the
     * k-th send. The account session is looked up (or created) first. Only a batch whose sends
     * all succeed schedules the one follow-up poll; a failure aborts the rest of the batch.
     */
    method SetDeviceOpts(intent: Intent, accept: nat -> bool) returns (delivered: seq<Command>, ok: bool)
      requires registry.Valid()
      modifies this`repollsScheduled, registry
      ensures registry.Valid()
      ensures registry.sessions.Keys == old(registry.sessions.Keys) + {username}
      ensures forall u :: u in old(registry.sessions) ==> registry.sessions[u] == old(registry.sessions[u])
      ensures username !in old(registry.sessions) ==> fresh(registry.sessions[username])
      ensures registry.sessions[username].View() == old(registry.ViewOf(username))
      ensures |delivered| <= |Translate(intent)| && delivered == Translate(intent)[..|delivered|]
      ensures forall k :: 0 <= k < |delivered| ==> accept(k)
      ensures ok <==> |delivered| == |Translate(intent)|
      ensures !ok ==> !accept(|delivered|)
      ensures repollsScheduled == old(repollsScheduled) + (if ok then 1 else 0)
    {
      var client := registry.GetApi(username, password);
      delivered, ok := SendInOrder(Translate(intent), accept);
      if ok {
        repollsScheduled := repollsScheduled + 1;
      }
    }

    /** Sets the capability values from a reported record: the sensors, then power, mode and
        fan speed by Workmode, then the toggles. */
    method UpdateAppliance(props: Reported)
      modifies this`caps
      ensures caps == ApplyReported(old(caps), props)
    {
      caps := caps.(co2 := props.co2, humidity := props.humidity, pm25 := props.pm2_5,
                    pm10 := props.pm10, pm1 := props.pm1, voc := props.tvoc,
                    luminance := if props.envLightLvl.Some? && props.envLightLvl.value != 0
                                 then props.envLightLvl.value else 0,
                    temperature := props.temp, filterLife := props.filterLife);
      ghost var sensed := caps;
      assert sensed == WithSensors(old(caps), props);
      if props.workmode == "Auto" {
        caps := caps.(onoff := true, smartMode := "smart", fanSpeed := 10 * (props.fanspeed + 1));
      } else if props.workmode == "Manual" {
        caps := caps.(onoff := true, smartMode := "manual", fanSpeed := 10 * (props.fanspeed + 1));
      } else {
        caps := caps.(onoff := false, fanSpeed := 0);
      }
      ghost var moded := caps;
      assert moded == WithMode(sensed, props);
      caps := caps.(ionizer := props.ionizer, light := props.uiLight, lock := props.safetyLock);
      assert caps == WithToggles(moded, props);
    }

    /** Classifies the looked-up snapshot and either marks the device unavailable with the
        reason or marks it available and updates it. */
    method ReconcileWith(found: Option<Appliance>)
      modifies this`caps, this`availability
      ensures (caps, availability) == AfterReconcile(old(caps), found)
    {
      match Classify(found)
      case Failure(reason) =>
        availability := Unavailable(reason);
      case Success(props) =>
        availability := Available;
        UpdateAppliance(props);
    }

    /** The account-level part of a tick and the reconciliation it leads to, on session s. */
    method Tick(s: Session, now: int, fetch: FetchResult) returns (outcome: PollOutcome)
      modifies s, this`caps, this`availability
      ensures s.View() == SessionAfterTick(old(s.View()), now, fetch)
      ensures outcome == OutcomeOf(old(s.View()), now, fetch)
      ensures outcome == Reconciled ==>
        s.appliances.Some? && (caps, availability) == AfterReconcile(old(caps), FindAppliance(s.appliances.value, deviceId))
      ensures outcome != Reconciled ==> caps == old(caps) && availability == old(availability)
    {
      if now - s.failTime < BackoffWindow {
        return BackedOff;
      }
      if now - s.lastPoll > FetchGuard {
        match fetch
        case FetchError =>
          s.failTime := now;
          return FetchFailed;
        case Listed(list) =>
          s.appliances := Some(list);
      }
      if s.appliances.Some? {
        ReconcileWith(FindAppliance(s.appliances.value, deviceId));
        outcome := Reconciled;
      } else {
        outcome := NoCache;
      }
    }

    /**
     * One poll tick at time now; fetch is what the account-wide list call answers if it is made.
     * A deleted or unconfigured device changes nothing; otherwise the account's session (created
     * if needed) goes through one tick, and no other session is touched.
     */
    method Poll(now: int, fetch: FetchResult) returns (outcome: PollOutcome)
      requires registry.Valid()
      modifies this`caps, this`availability, registry, registry.sessions.Values
      ensures registry.Valid()
      ensures old(deleted || deviceId == "" || username == "") ==>
        && outcome == Ignored && registry.sessions == old(registry.sessions)
        && caps == old(caps) && availability == old(availability)
        && forall u :: u in registry.sessions ==> registry.sessions[u].View() == old(registry.sessions[u].View())
      ensures !old(deleted || deviceId == "" || username == "") ==>
        && registry.sessions.Keys == old(registry.sessions.Keys) + {username}
        && (username in old(registry.sessions) ==> registry.sessions == old(registry.sessions))
        && (username !in old(registry.sessions) ==> fresh(registry.sessions[username]))
        && registry.sessions[username].View() == SessionAfterTick(old(registry.ViewOf(username)), now, fetch)
        && outcome == OutcomeOf(old(registry.ViewOf(username)), now, fetch)
        && (forall u :: u in old(registry.sessions) && u != username ==>
              registry.sessions[u] == old(registry.sessions[u])
              && registry.sessions[u].View() == old(registry.sessions[u].View()))
      ensures outcome == Reconciled ==>
        var list := registry.sessions[username].appliances;
        list.Some? && (caps, availability) == AfterReconcile(old(caps), FindAppliance(list.value, deviceId))
      ensures outcome != Reconciled ==> caps == old(caps) && availability == old(availability)
    {
      if deleted || deviceId == "" || username == "" {
        return Ignored;
      }
      var client := registry.GetApi(username, password);
      outcome := Tick(client, now, fetch);
    }
  }

  /** Scenario: two purifiers on one account share its back-off. A failed fetch by the first
      device keeps the second one from fetching (and from changing) until the window has passed. */
  method SharedBackoff(r: Registry, c: Capabilities, t: int, list: seq<Appliance>)
    requires r.Valid() && r.sessions == map[]
    requires t >= BackoffWindow
    modifies r
  {
    var d1 := new Device("purifier-1", "owner@example.com", "secret", r, c, Available);
    var d2 := new Device("purifier-2", "owner@example.com", "secret", r, c, Available);
    var o1 := d1.Poll(t, FetchError);
    assert o1 == FetchFailed;
    var o2 := d2.Poll(t + 1, Listed(list));
    assert o2 == BackedOff && d2.availability == Available && d2.caps == c;
    var o3 := d2.Poll(t + BackoffWindow, Listed(list));
    assert o3 == Reconciled;
    assert d2.availability == Unavailable(NotInAccount) <==> FindAppliance(list, "purifier-2").None?;
  }
}
