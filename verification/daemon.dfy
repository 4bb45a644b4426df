/** The daemon (`runDaemon`): a state machine over the connection flag, the
    last addresses seen and the update deadline, driven by three events: a
    connectivity tick, the update timer firing, and a stop signal. Each
    event carries what the daemon would learn from the network while
    handling it: the probe's verdict for a tick, the address lookups for a
    tick or a fire. Whether a handler runs an update pass is an output; the
    pass itself is `Orchestrator.RunOnce`, which fetches the addresses
    anew, so the lookups here are separate inputs. Timer resets become
    `deadline := now + updateInterval`, in seconds. The deadline is a
    record of when the timer is due, not a guard: `Step` accepts a `Fire`
    at any `now`, and that fires come no earlier than the deadline is left
    to the event source, as the runtime's timer is in the program. */
module Daemon {
  import opened Common
  import Config

  datatype State = State(connected: bool, lastV4: string, lastV6: string, deadline: int, running: bool)

  datatype Event =
    | Tick(now: int, probe: bool, v4: Result<string>, v6: Result<string>)
    | Fire(now: int, v4: Result<string>, v6: Result<string>)
    | Stop

  /** The state after handling an event, and whether an update pass ran. */
  datatype Outcome = Outcome(state: State, passRan: bool)

  /** The lookups differ from the last addresses, a failed lookup counting
      as no address. */
  predicate Changed(s: State, v4: Result<string>, v6: Result<string>) {
    OrEmpty(v4) != s.lastV4 || OrEmpty(v6) != s.lastV6
  }

  /** Startup: the update timer is armed, the network is probed once, and a
      pass runs exactly when the probe succeeds; the last addresses are then
      the lookups made after it, and stay empty otherwise. */
  function Start(g: Config.GeneralSettings, now: int, probe: bool, v4: Result<string>, v6: Result<string>): (o: Outcome)
    ensures o.passRan <==> probe
    ensures o.state.connected == probe && o.state.running
    ensures o.state.deadline == now + g.updateInterval
    ensures probe ==> o.state.lastV4 == OrEmpty(v4) && o.state.lastV6 == OrEmpty(v6)
    ensures !probe ==> o.state.lastV4 == "" && o.state.lastV6 == ""
  {
    var s := State(false, "", "", now + g.updateInterval, true);
    if probe then Outcome(s.(connected := true, lastV4 := OrEmpty(v4), lastV6 := OrEmpty(v6)), true)
    else Outcome(s, false)
  }

  /** One turn of the event loop. Once stopped, the loop has returned and
      nothing more happens. */
  function Step(g: Config.GeneralSettings, s: State, e: Event): (o: Outcome)
    ensures !s.running ==> o == Outcome(s, false)
    ensures s.running && e.Tick? ==>
      && (o.passRan <==> e.probe && !s.connected)
      && o.state.connected == e.probe && o.state.running
      && (o.passRan ==> o.state.lastV4 == OrEmpty(e.v4) && o.state.lastV6 == OrEmpty(e.v6)
                        && o.state.deadline == e.now + g.updateInterval)
      && (!o.passRan ==> o.state == s.(connected := e.probe))
    ensures s.running && e.Fire? ==>
      && (o.passRan <==> s.connected && Changed(s, e.v4, e.v6))
      && o.state.connected == s.connected && o.state.running
      && o.state.deadline == e.now + g.updateInterval
      && (s.connected ==> o.state.lastV4 == OrEmpty(e.v4) && o.state.lastV6 == OrEmpty(e.v6))
      && (!s.connected ==> o.state.lastV4 == s.lastV4 && o.state.lastV6 == s.lastV6)
    ensures s.running && e.Stop? ==> o == Outcome(s.(running := false), false)
  {
    if !s.running then Outcome(s, false)
    else
      match e
      case Tick(now, probe, v4, v6) =>
        if probe && !s.connected then
          Outcome(s.(connected := true, lastV4 := OrEmpty(v4), lastV6 := OrEmpty(v6),
                     deadline := now + g.updateInterval), true)
        else if !probe && s.connected then
          Outcome(s.(connected := false), false)
        else
          Outcome(s, false)
      case Fire(now, v4, v6) =>
        var reset := s.(deadline := now + g.updateInterval);
        if s.connected then
          var ip4, ip6 := OrEmpty(v4), OrEmpty(v6);
          if ip4 != s.lastV4 || ip6 != s.lastV6 then
            Outcome(reset.(lastV4 := ip4, lastV6 := ip6), true)
          else
            Outcome(reset, false)
        else
          Outcome(reset, false)
      case Stop =>
        Outcome(s.(running := false), false)
  }

  /** The daemon's life after some state: the final state and how many
      passes ran. */
  datatype Trace = Trace(state: State, passes: nat)

  function Run(g: Config.GeneralSettings, s: State, events: seq<Event>): (t: Trace)
    ensures t.passes <= |events|
    ensures t.state.running ==> s.running
    decreases |events|
  {
    if |events| == 0 then Trace(s, 0)
    else
      var o := Step(g, s, events[0]);
      var rest := Run(g, o.state, events[1..]);
      Trace(rest.state, rest.passes + if o.passRan then 1 else 0)
  }

  /** Observing the state the daemon already believes in changes nothing:
      the connectivity tick reacts to edges only. */
  lemma SameConnectivityIsQuiet(g: Config.GeneralSettings, s: State, now: int, v4: Result<string>, v6: Result<string>)
    ensures Step(g, s, Tick(now, s.connected, v4, v6)) == Outcome(s, false)
  {
  }

  /** Every event after the stop signal is ignored. */
  lemma {:induction false} StoppedIgnoresEvents(g: Config.GeneralSettings, s: State, events: seq<Event>)
    requires !s.running
    ensures Run(g, s, events) == Trace(s, 0)
    decreases |events|
  {
    if |events| > 0 {
      StoppedIgnoresEvents(g, s, events[1..]);
    }
  }

  lemma StopEndsTheLoop(g: Config.GeneralSettings, s: State, rest: seq<Event>)
    requires s.running
    ensures Run(g, s, [Stop] + rest) == Trace(s.(running := false), 0)
  {
    assert ([Stop] + rest)[1..] == rest;
    StoppedIgnoresEvents(g, s.(running := false), rest);
  }

  /** Events under which a connected daemon whose last addresses are
      `v4`, `v6` sees nothing new: every probe succeeds and every lookup
      gives the same addresses. */
  predicate Steady(v4: string, v6: string, events: seq<Event>) {
    forall k :: 0 <= k < |events| ==>
      match events[k]
      case Tick(_, probe, _, _) => probe
      case Fire(_, a, b) => OrEmpty(a) == v4 && OrEmpty(b) == v6
      case Stop => true
  }

  /** On a steady network no pass ever runs and the daemon stays connected
      with the same last addresses. */
  lemma {:induction false} SteadyNetworkIsQuiet(g: Config.GeneralSettings, s: State, events: seq<Event>)
    requires s.connected && Steady(s.lastV4, s.lastV6, events)
    ensures var t := Run(g, s, events);
            t.passes == 0 && t.state.connected && t.state.lastV4 == s.lastV4 && t.state.lastV6 == s.lastV6
    decreases |events|
  {
    if |events| > 0 {
      var o := Step(g, s, events[0]);
      assert Steady(s.lastV4, s.lastV6, events[1..]) by {
        forall k | 0 <= k < |events[1..]| ensures events[1..][k] == events[k + 1] {}
      }
      assert !o.passRan && o.state.connected && o.state.lastV4 == s.lastV4 && o.state.lastV6 == s.lastV6 by {
        assert Steady(s.lastV4, s.lastV6, events);
        match events[0]
        case Tick(_, probe, _, _) => assert probe;
        case Fire(_, a, b) => assert OrEmpty(a) == s.lastV4 && OrEmpty(b) == s.lastV6;
        case Stop =>
      }
      SteadyNetworkIsQuiet(g, o.state, events[1..]);
    }
  }

  /** Events with no successful probe. */
  predicate Offline(events: seq<Event>) {
    forall k :: 0 <= k < |events| ==> (events[k].Tick? ==> !events[k].probe)
  }

  /** While the network is down no pass runs, whatever the lookups say,
      and the last addresses are kept. */
  lemma {:induction false} OfflineIsQuiet(g: Config.GeneralSettings, s: State, events: seq<Event>)
    requires !s.connected && Offline(events)
    ensures var t := Run(g, s, events);
            t.passes == 0 && !t.state.connected && t.state.lastV4 == s.lastV4 && t.state.lastV6 == s.lastV6
    decreases |events|
  {
    if |events| > 0 {
      var o := Step(g, s, events[0]);
      assert Offline(events[1..]) by {
        forall k | 0 <= k < |events[1..]| ensures events[1..][k] == events[k + 1] {}
      }
      assert events[0].Tick? ==> !events[0].probe;
      OfflineIsQuiet(g, o.state, events[1..]);
    }
  }

  /** Two successful probes in a row after an outage bring one pass, not
      two. */
  lemma ReconnectRunsOnce(g: Config.GeneralSettings, s: State, t1: int, t2: int,
                          a: Result<string>, b: Result<string>, c: Result<string>, d: Result<string>)
    requires s.running && !s.connected
    ensures Run(g, s, [Tick(t1, true, a, b), Tick(t2, true, c, d)]).passes == 1
  {
    var events := [Tick(t1, true, a, b), Tick(t2, true, c, d)];
    var o := Step(g, s, events[0]);
    assert events[1..] == [Tick(t2, true, c, d)];
    assert events[1..][1..] == [];
    SameConnectivityIsQuiet(g, o.state, t2, c, d);
  }

  /** After a fire the daemon holds the addresses it just looked up, whether
      or not they triggered a pass; so a second fire with the same lookups
      is quiet. */
  lemma RepeatedFireIsQuiet(g: Config.GeneralSettings, s: State, t1: int, t2: int, v4: Result<string>, v6: Result<string>)
    requires s.running
    ensures var o := Step(g, s, Fire(t1, v4, v6));
            !Step(g, o.state, Fire(t2, v4, v6)).passRan
  {
  }
}
