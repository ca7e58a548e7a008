/** The policy as it runs: a decision kept between calls, a record file rewritten, and origins cleared. */
module RendererPortPolicy {
  import opened Options
  import opened RendererPort
  import S = RendererPort

  /** deadRendererOrigins: every port the packaged server could have served from, but one. */
  method DeadRendererOrigins(kept: int) returns (ports: seq<int>)
    ensures forall port :: port in ports <==> port in DeadOrigins(kept)
    ensures forall i, j :: 0 <= i < j < |ports| ==> ports[i] < ports[j]
  {
    ports := [];
    var port := STABLE_PORT_MIN;
    while port <= HIGHEST_PORT
      invariant STABLE_PORT_MIN <= port <= HIGHEST_PORT + 1
      invariant forall p :: p in ports <==> STABLE_PORT_MIN <= p < port && p != kept
      invariant forall i :: 0 <= i < |ports| ==> ports[i] < port
      invariant forall i, j :: 0 <= i < j < |ports| ==> ports[i] < ports[j]
    {
      if port != kept { ports := ports + [port]; }
      port := port + 1;
    }
  }

  /** newStablePort: at most sixteen candidates, each probed once. */
  method ChooseStablePort(draws: nat -> Draw, any: int) returns (port: int)
    ensures port == NewStablePort(draws, 0, any)
  {
    var attempt := 0;
    while attempt < STABLE_PORT_CANDIDATES
      invariant 0 <= attempt <= STABLE_PORT_CANDIDATES
      invariant NewStablePort(draws, attempt, any) == NewStablePort(draws, 0, any)
    {
      var draw := draws(attempt);
      if draw.probe == Free { return Candidate(draw); }
      attempt := attempt + 1;
    }
    return any;
  }

  /** A record marked swept leaves no other packaged origin with storage, but for strays since that sweep. */
  class Policy {
    var file: File
    var storage: set<int>
    ghost var strays: set<int>
    var decision: Option<Decision>
    var servedKept: Option<int>

    ghost function State(): World
      reads this
    {
      World(file, storage, strays)
    }

    ghost predicate Valid()
      reads this
    {
      SweptMeansSwept(State())
    }

    constructor ()
      ensures Valid() && State() == World(NoFile, {}, {}) && decision == None && servedKept == None
    {
      file, storage, strays, decision, servedKept := NoFile, {}, {}, None, None;
    }

    method DecidePort(env: Launch) returns (d: Decision)
      ensures d == Decide(file, env)
    {
      var kept := ReadKept(file, env.readable);
      if kept.Inaccessible? { return Temporary(env.any); }
      if kept.Ok? {
        var record := kept.kept;
        if env.probe == Free { return KeptPort(record.port, record); }
        if env.probe == Unjudged { return Temporary(env.any); }
        var fallbacks := record.fallbacks + 1;
        if fallbacks < REHOME_AFTER { return Fallback(env.any, Kept(record.port, fallbacks, false)); }
      }
      var port := ChooseStablePort(env.draws, env.any);
      return NewPort(port);
    }

    method Allocate(env: Launch) returns (port: int)
      modifies this`decision
      ensures decision == Some(Decide(file, env)) && port == Decide(file, env).port
    {
      var d := DecidePort(env);
      decision := Some(d);
      port := d.port;
    }

    /** The server answers on `port`: its origin has storage from here on, and the outcome is recorded. */
    method Serving(port: int, written: bool)
      requires decision.Some? && decision.value.port == port
      modifies this
      ensures State() == Serve(old(State()), old(decision).value, written)
      ensures decision == None && servedKept == ServedKept(old(decision).value)
    {
      var settled := decision.value;
      decision := None;
      storage := storage + {port};
      servedKept := if settled.KeptPort? || settled.NewPort? then Some(port) else None;
      strays := if settled.KeptPort? || (Outcome(settled).Some? && written) then strays else strays + {port};
      if settled.Temporary? { return; }
      var next: Option<Kept> := None;
      if settled.NewPort? {
        if StablePort(port) { next := Some(Kept(port, 0, false)); }
      } else if settled.Fallback? {
        next := Some(settled.record);
      } else if settled.record.fallbacks != 0 {
        next := Some(Kept(port, 0, false));
      }
      if next.Some? && written { file := Bytes(next.value); }
    }

    method ClearOrigins(ports: set<int>)
      modifies this`storage
      ensures storage == old(storage) - ports
    {
      storage := storage - ports;
    }

    method SweepDeadOrigins(env: Launch)
      modifies this
      ensures State() == Sweep(old(State()), old(servedKept), env) && servedKept == None
    {
      var served := servedKept;
      servedKept := None;
      if served.None? { return; }
      var kept := ReadKept(file, env.readableAgain);
      if !kept.Ok? || kept.kept.port != served.value || kept.kept.swept { return; }
      if !env.clears {
        ClearOrigins(env.clearedAnyway * DeadOrigins(served.value));
        return;
      }
      ClearOrigins(DeadOrigins(served.value));
      strays := {};
      if env.sweepWritten { file := Bytes(kept.kept.(swept := true)); }
    }

    /** One launch of the app, from choosing a port to the sweep. */
    method LaunchOnce(env: Launch)
      requires Valid()
      modifies this
      ensures Valid() && State() == Launched(old(State()), env)
    {
      LaunchKeepsSwept(State(), env);
      servedKept := None;
      var port := Allocate(env);
      if !env.serves { return; }
      Serving(port, env.recordWritten);
      if env.sweeps { SweepDeadOrigins(env); }
    }
  }
}
