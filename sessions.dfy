/**
 * Account sessions of the Pure A9 device driver (drivers/electrolux-pure-a9/device.js): the
 * module-level `apis` registry with its get-or-create getApi, and the account-wide part of one
 * poll tick (failure back-off, fetch guard, recording a failed fetch).
 */
module Sessions {
  import opened Wrappers
  import opened Reconcile

  const PollInterval: int := 60000       // POLL_INTERVAL, milliseconds
  const BackoffPollCount: int := 15      // BACKOFF_POLL_COUNT
  /** No fetch while now - failTime is below this (15 poll intervals). */
  const BackoffWindow: int := PollInterval * BackoffPollCount
  /** A fetch only when now - lastPoll exceeds this (POLL_INTERVAL * 0.5). */
  const FetchGuard: int := PollInterval / 2

  /** The outcome of the account-wide getAppliances call, when it is made. */
  datatype FetchResult = Listed(appliances: seq<Appliance>) | FetchError

  /** The polling bookkeeping of one account session, as a value. */
  datatype SessionView = SessionView(lastPoll: int, failTime: int, appliances: Option<seq<Appliance>>)

  const NewSessionView: SessionView := SessionView(0, 0, None)

  /** How a tick ends at the account level. */
  datatype TickStage =
    | Hold       // inside the failure back-off window: no network call
    | Failed     // the list fetch was made and failed
    | Proceed    // go on to the cached list (fetched now or earlier)

  predicate InBackoff(v: SessionView, now: int)
  {
    now - v.failTime < BackoffWindow
  }

  predicate FetchDue(v: SessionView, now: int)
  {
    now - v.lastPoll > FetchGuard
  }

  function TickStageOf(v: SessionView, now: int, fetch: FetchResult): (st: TickStage)
    ensures st == Hold <==> InBackoff(v, now)
    ensures st == Failed <==> !InBackoff(v, now) && FetchDue(v, now) && fetch.FetchError?
  {
    if InBackoff(v, now) then Hold
    else if FetchDue(v, now) && fetch.FetchError? then Failed
    else Proceed
  }

  /** The session's bookkeeping after one tick at time now; fetch is what the list call would give. */
  function SessionAfterTick(v: SessionView, now: int, fetch: FetchResult): (v': SessionView)
    ensures v'.lastPoll == v.lastPoll
    ensures InBackoff(v, now) || !FetchDue(v, now) ==> v' == v
    ensures !InBackoff(v, now) && FetchDue(v, now) && fetch.FetchError? ==>
      v' == v.(failTime := now)
    ensures !InBackoff(v, now) && FetchDue(v, now) && fetch.Listed? ==>
      v' == v.(appliances := Some(fetch.appliances))
  {
    if InBackoff(v, now) || !FetchDue(v, now) then v
    else match fetch
      case FetchError => v.(failTime := now)
      case Listed(list) => v.(appliances := Some(list))
  }

  /** After a failed fetch at time t, every tick before t + BackoffWindow is backed off and
      changes nothing, whatever the network would answer. */
  lemma BackoffAfterFailure(v: SessionView, t: int, later: int, fetch: FetchResult)
    requires TickStageOf(v, t, FetchError) == Failed
    requires t <= later < t + BackoffWindow
    ensures var v' := SessionAfterTick(v, t, FetchError);
      && v'.failTime == t && v'.appliances == v.appliances
      && TickStageOf(v', later, fetch) == Hold
      && SessionAfterTick(v', later, fetch) == v'
  {
  }

  /** Once the window has passed, a tick attempts a fetch again (the fetch guard cannot stop it:
      it was already open at the failed tick and lastPoll has not moved since); a fresh failure
      restarts the window from the new time. */
  lemma BackoffExpires(v: SessionView, t: int, later: int, fetch: FetchResult)
    requires TickStageOf(v, t, FetchError) == Failed
    requires later >= t + BackoffWindow
    ensures var v' := SessionAfterTick(v, t, FetchError);
      && TickStageOf(v', later, fetch) != Hold
      && (fetch.FetchError? ==> SessionAfterTick(v', later, fetch).failTime == later)
      && (fetch.Listed? ==> SessionAfterTick(v', later, fetch).appliances == Some(fetch.appliances))
  {
  }

  /** lastPoll is never advanced by a tick, so two ticks on one session (two devices of one
      account, say) both fetch once the first fetch was due: the fetch guard does not amortise. */
  lemma EveryDueTickFetches(v: SessionView, t1: int, t2: int, first: seq<Appliance>, second: seq<Appliance>)
    requires !InBackoff(v, t1) && FetchDue(v, t1) && t1 <= t2
    ensures var v1 := SessionAfterTick(v, t1, Listed(first));
      && v1.appliances == Some(first)
      && SessionAfterTick(v1, t2, Listed(second)).appliances == Some(second)
  {
  }

  // ---------------------------------------------------------------------------------------
  // The objects

  /** One account's API object: credentials set at creation and the polling bookkeeping. */
  class Session {
    const username: string
    const password: string
    var lastPoll: int
    var failTime: int
    var appliances: Option<seq<Appliance>>

    constructor (username: string, password: string)
      ensures this.username == username && this.password == password
      ensures View() == NewSessionView
    {
      this.username := username;
      this.password := password;
      lastPoll, failTime, appliances := 0, 0, None;
    }

    function View(): SessionView
      reads this
    {
      SessionView(lastPoll, failTime, appliances)
    }
  }

  /** The process-wide registry of sessions, keyed by account username. */
  class Registry {
    var sessions: map<string, Session>

    /** Every session is filed under its own username, so no two accounts share one. */
    ghost predicate Valid()
      reads this
    {
      forall u :: u in sessions ==> sessions[u].username == u
    }

    constructor ()
      ensures Valid() && sessions == map[]
    {
      sessions := map[];
    }

    lemma DistinctAccountsDistinctSessions(u1: string, u2: string)
      requires Valid() && u1 in sessions && u2 in sessions && u1 != u2
      ensures sessions[u1] != sessions[u2]
    {
    }

    /** The bookkeeping a tick for this account starts from (a new session's when none exists). */
    function ViewOf(username: string): SessionView
      reads this, sessions.Values
    {
      if username in sessions then sessions[username].View() else NewSessionView
    }

    /** Get-or-create: an existing session is returned as it is (its password is not compared);
        otherwise a new one with lastPoll = failTime = 0 is filed under the username. */
    method GetApi(username: string, password: string) returns (s: Session)
      requires Valid()
      modifies this
      ensures Valid()
      ensures username in sessions && s == sessions[username]
      ensures username in old(sessions) ==> sessions == old(sessions) && s == old(sessions[username])
      ensures username !in old(sessions) ==>
        && fresh(s) && sessions == old(sessions)[username := s]
        && s.username == username && s.password == password && s.View() == NewSessionView
      ensures s.View() == old(ViewOf(username))
    {
      if username in sessions {
        s := sessions[username];
      } else {
        s := new Session(username, password);
        sessions := sessions[username := s];
      }
    }
  }

  /** Scenario: asking twice for one account yields the same session, even with another password,
      and leaves the other accounts alone. */
  method GetApiTwice(r: Registry, username: string)
    requires r.Valid()
    modifies r
  {
    var before := r.sessions;
    var a := r.GetApi(username, "first");
    var b := r.GetApi(username, "second");
    assert a == b && a.password == (if username in before then before[username].password else "first");
    assert forall u :: u in before && u != username ==> r.sessions[u] == before[u];
  }
}
