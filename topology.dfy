/**
 * The topology resolver: which host is the master and which replica is safe to
 * read from. The orchestrator is consulted only when the options name its URI;
 * its single answer is a parameter here (a hostname or an error for the
 * master, a replica list or an error for the replicas). Every failure falls
 * back to a hostname built from the naming convention, so both resolvers
 * always answer.
 */
module Topology {
  import opened Wrappers
  import opened GoInt
  import opened Config
  import opened Naming
  import Decimal

  /** A replica as the orchestrator reports it; the lag, in seconds, may be unknown. */
  datatype Replica = Replica(hostname: string, secondsBehindMaster: Option<Int64>)

  /** The largest replication lag, in seconds, of a replica worth reading from. */
  const MaxHealthyLag := 5

  predicate Eligible(r: Replica) {
    r.secondsBehindMaster.Some? && r.secondsBehindMaster.value <= MaxHealthyLag
  }

  /** The hostname of the last eligible replica in list order, if any replica is eligible. */
  function LastEligible(replicas: seq<Replica>): (h: Option<string>)
    ensures h.None? <==> forall i :: 0 <= i < |replicas| ==> !Eligible(replicas[i])
    ensures h.Some? ==> exists i :: 0 <= i < |replicas| && Eligible(replicas[i])
                          && replicas[i].hostname == h.value
                          && forall j :: i < j < |replicas| ==> !Eligible(replicas[j])
  {
    if replicas == [] then None
    else
      var last := replicas[|replicas| - 1];
      var rest := replicas[..|replicas| - 1];
      if Eligible(last) then Some(last.hostname)
      else
        var h := LastEligible(rest);
        assert forall i :: 0 <= i < |rest| ==> rest[i] == replicas[i];
        if h.Some? then
          var i :| 0 <= i < |rest| && Eligible(rest[i]) && rest[i].hostname == h.value
                   && forall j :: i < j < |rest| ==> !Eligible(rest[j]);
          assert forall j :: i < j < |replicas| ==> !Eligible(replicas[j]);
          h
        else
          h
  }

  /** The master's hostname: the orchestrator's answer when it is asked and answers, else pod 0. */
  function MasterHost(clusterName: string, opt: Options, master: Result<string>): (host: string)
    ensures opt.orchestratorUri == "" || master.Err? ==> host == PodHostName(clusterName, 0)
    ensures opt.orchestratorUri != "" && master.Ok? ==> host == master.value
  {
    var fallback := PodHostName(clusterName, 0);
    if |opt.orchestratorUri| != 0 then
      match master
      case Ok(h) => h
      case Err(_) => fallback
    else
      fallback
  }

  /**
   * The healthy replica's hostname: the last replica in the orchestrator's
   * list whose lag is known and at most five seconds; otherwise (no URI, an
   * error, no such replica) the pod with ordinal `readyNodes - 1`.
   */
  function HealthySlaveHost(clusterName: string, readyNodes: int, opt: Options,
                            replicas: Result<seq<Replica>>): (host: string)
    ensures opt.orchestratorUri == "" || replicas.Err? ==> host == PodHostName(clusterName, readyNodes - 1)
    ensures opt.orchestratorUri != "" && replicas.Ok? ==>
              host == match LastEligible(replicas.value)
                      case Some(h) => h
                      case None => PodHostName(clusterName, readyNodes - 1)
  {
    var fallback := PodHostName(clusterName, readyNodes - 1);
    if opt.orchestratorUri == "" || replicas.Err? then fallback
    else LastEligible(replicas.value).GetOr(fallback)
  }

  /**
   * The resolver as the source runs it: start from the structural hostname
   * and, walking the replica list, take every eligible replica's hostname in
   * turn, so the last one stays.
   */
  method GetHealthySlaveHost(clusterName: string, readyNodes: int, opt: Options,
                             replicas: Result<seq<Replica>>) returns (host: string)
    ensures host == HealthySlaveHost(clusterName, readyNodes, opt, replicas)
  {
    host := PodHostName(clusterName, readyNodes - 1);
    if |opt.orchestratorUri| != 0 {
      if replicas.Err? {
        return host;
      }
      var rs := replicas.value;
      for i := 0 to |rs|
        invariant host == LastEligible(rs[..i]).GetOr(PodHostName(clusterName, readyNodes - 1))
      {
        assert rs[..i + 1][..i] == rs[..i];
        if rs[i].secondsBehindMaster.Some? && rs[i].secondsBehindMaster.value <= 5 {
          host := rs[i].hostname;
        }
      }
      assert rs[..|rs|] == rs;
    }
  }

  /** Without an orchestrator URI the master is pod 0, whatever the orchestrator would have said. */
  lemma MasterHostWithoutOrchestrator(clusterName: string, opt: Options, a: Result<string>, b: Result<string>)
    requires opt.orchestratorUri == ""
    ensures MasterHost(clusterName, opt, a) == MasterHost(clusterName, opt, b) == PodHostName(clusterName, 0)
  {
  }

  /** The master is either the orchestrator's answer or pod 0, and pod 0 only when that answer is not used. */
  lemma MasterHostOrigin(clusterName: string, opt: Options, master: Result<string>)
    ensures var host := MasterHost(clusterName, opt, master);
      (opt.orchestratorUri != "" && master.Ok? && host == master.value)
      || ((opt.orchestratorUri == "" || master.Err?) && OrdinalOf(clusterName, host) == Some(0))
  {
    PodHostNameOrdinal(clusterName, 0);
  }

  /**
   * The healthy replica is the hostname of an eligible replica that no later
   * replica in the list supersedes, or, when no answer was used or no replica
   * is eligible, the pod with ordinal `readyNodes - 1`.
   */
  lemma HealthySlaveHostOrigin(clusterName: string, readyNodes: int, opt: Options,
                               replicas: Result<seq<Replica>>)
    ensures var host := HealthySlaveHost(clusterName, readyNodes, opt, replicas);
      (opt.orchestratorUri != "" && replicas.Ok?
        && exists i :: 0 <= i < |replicas.value| && Eligible(replicas.value[i])
                       && host == replicas.value[i].hostname
                       && forall j :: i < j < |replicas.value| ==> !Eligible(replicas.value[j]))
      || ((opt.orchestratorUri == "" || replicas.Err?
           || forall i :: 0 <= i < |replicas.value| ==> !Eligible(replicas.value[i]))
          && OrdinalOf(clusterName, host) == Some(readyNodes - 1))
  {
    PodHostNameOrdinal(clusterName, readyNodes - 1);
  }

  /**
   * Of replicas lagging 10 seconds, 3 seconds and an unknown time, the second
   * is chosen.
   */
  lemma HealthySlaveHostExample(clusterName: string, readyNodes: int, opt: Options)
    requires opt.orchestratorUri != ""
    ensures HealthySlaveHost(clusterName, readyNodes, opt,
              Ok([Replica("h1", Some(10)), Replica("h2", Some(3)), Replica("h3", None)])) == "h2"
  {
    var rs := [Replica("h1", Some(10)), Replica("h2", Some(3)), Replica("h3", None)];
    assert rs[..2] == [Replica("h1", Some(10)), Replica("h2", Some(3))];
  }

  /**
   * The choice is the last eligible replica, not the least lagging one, and a
   * negative lag counts as eligible.
   */
  lemma HealthySlaveHostIsLastNotLeastLag(clusterName: string, readyNodes: int, opt: Options)
    requires opt.orchestratorUri != ""
    ensures HealthySlaveHost(clusterName, readyNodes, opt,
              Ok([Replica("fresh", Some(0)), Replica("late", Some(5))])) == "late"
    ensures HealthySlaveHost(clusterName, readyNodes, opt,
              Ok([Replica("odd", Some(-3)), Replica("stale", Some(6))])) == "odd"
  {
    var rs := [Replica("odd", Some(-3)), Replica("stale", Some(6))];
    assert rs[..1] == [Replica("odd", Some(-3))];
  }

  /**
   * With no ready pod the fallback ordinal is -1, which is printed with its
   * sign: `<cluster>-mysql--1.<cluster>-mysql`.
   */
  lemma HealthySlaveHostNoReadyNodes(clusterName: string, opt: Options, replicas: Result<seq<Replica>>)
    requires opt.orchestratorUri == "" || replicas.Err?
    ensures HealthySlaveHost(clusterName, 0, opt, replicas)
         == clusterName + "-mysql--1." + clusterName + "-mysql"
  {
    PodHostNameShape(clusterName, -1);
    assert Decimal.Format(-1) == "-1" by {
      assert Decimal.NatDigits(1) == "1";
    }
  }
}
