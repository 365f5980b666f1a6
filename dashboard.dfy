/**
  The dashboard's cluster summaries (`dask_gateway_dashboard.py`).

  `MakeClusterModel` turns one connected cluster into a `ClusterModel`;
  `ListClusters` walks the gateway's cluster listing, connects to each listed
  cluster by name and appends its model.  The gateway client is a collaborator
  on the network: it is given here as a `Gateway` value holding the outcome of
  the listing call and the outcome of connecting to each name.
 */
module Dashboard {

  import opened Results
  import opened Scheduler

  /** The part of `cluster.scheduler_info` that the dashboard reads. */
  datatype SchedulerInfo = SchedulerInfo(workers: WorkerTable)

  /** A connected cluster handle, as returned by `gateway.connect(name)`. */
  datatype Cluster = Cluster(name: string, dashboardLink: string, schedulerInfo: SchedulerInfo)

  /** One entry of `gateway.list_clusters()`; only its name is used. */
  datatype ClusterReport = ClusterReport(name: string)

  /** Whatever the gateway client raises. */
  datatype GatewayError = GatewayError(message: string)

  /**
    The gateway as seen by one `list_clusters` call: the outcome of listing the
    clusters, and the outcome of connecting to a cluster by name.
   */
  datatype Gateway = Gateway(
    listing: Result<seq<ClusterReport>, GatewayError>,
    connect: string -> Result<Cluster, GatewayError>)

  /** The summary record sent to the page (`cores` is a float there, always a sum of integers). */
  datatype ClusterModel = ClusterModel(name: string, dashboardLink: string, workers: nat, cores: int)

  /**
    `make_cluster_model`: the worker count is the number of workers in the
    snapshot, the core count the sum of their thread counts; name and dashboard
    link are copied.
   */
  function MakeClusterModel(cluster: Cluster): (model: ClusterModel)
    ensures model.name == cluster.name && model.dashboardLink == cluster.dashboardLink
    ensures model.workers == |ToMap(cluster.schedulerInfo.workers)|
    ensures model.cores == MapThreads(ToMap(cluster.schedulerInfo.workers))
  {
    var workers := cluster.schedulerInfo.workers;
    CountIsMapSize(workers);
    SumThreadsIsMapThreads(workers);
    ClusterModel(cluster.name, cluster.dashboardLink, |workers|, SumThreads(workers))
  }

  /**
    What `list_clusters` produces from the listing `reports`: connect to each
    listed name in turn and model it, stopping at the first connection that fails.
   */
  function Collect(reports: seq<ClusterReport>, connect: string -> Result<Cluster, GatewayError>)
    : Result<seq<ClusterModel>, GatewayError>
  {
    if reports == [] then Success([])
    else
      match Collect(reports[..|reports| - 1], connect)
      case Failure(e) => Failure(e)
      case Success(models) =>
        match connect(reports[|reports| - 1].name)
        case Failure(e) => Failure(e)
        case Success(cluster) => Success(models + [MakeClusterModel(cluster)])
  }

  /** What `list_clusters` produces from the gateway: a failing listing call fails the whole call. */
  function ListModels(gateway: Gateway): Result<seq<ClusterModel>, GatewayError> {
    match gateway.listing
    case Failure(e) => Failure(e)
    case Success(reports) => Collect(reports, gateway.connect)
  }

  /** `list_clusters`: a loop over the listing that appends one model per listed cluster. */
  method ListClusters(gateway: Gateway) returns (r: Result<seq<ClusterModel>, GatewayError>)
    ensures r == ListModels(gateway)
  {
    if gateway.listing.Failure? {
      return Failure(gateway.listing.error);
    }
    var reports := gateway.listing.value;
    var clusters: seq<ClusterModel> := [];
    for i := 0 to |reports|
      invariant Collect(reports[..i], gateway.connect) == Success(clusters)
    {
      assert reports[..i + 1][..i] == reports[..i];
      var clusterName := reports[i].name;
      var connection := gateway.connect(clusterName);
      if connection.Failure? {
        FailureIsFinal(reports, i + 1, gateway.connect);
        return Failure(connection.error);
      }
      var clusterModel := MakeClusterModel(connection.value);
      clusters := clusters + [clusterModel];
    }
    assert reports[..|reports|] == reports;
    return Success(clusters);
  }

  /** Once a prefix of the listing has failed, the whole listing fails with the same error. */
  lemma {:induction false} FailureIsFinal(
    reports: seq<ClusterReport>, n: nat, connect: string -> Result<Cluster, GatewayError>)
    requires n <= |reports|
    requires Collect(reports[..n], connect).Failure?
    ensures Collect(reports, connect) == Collect(reports[..n], connect)
    decreases |reports| - n
  {
    if n < |reports| {
      assert reports[..n + 1][..n] == reports[..n];
      FailureIsFinal(reports, n + 1, connect);
    } else {
      assert reports[..n] == reports;
    }
  }

  /** The listing succeeds exactly when every listed cluster can be connected to. */
  lemma {:induction false} CollectSucceedsIff(
    reports: seq<ClusterReport>, connect: string -> Result<Cluster, GatewayError>)
    ensures Collect(reports, connect).Success?
        <==> forall i :: 0 <= i < |reports| ==> connect(reports[i].name).Success?
  {
    if reports != [] {
      var front, last := reports[..|reports| - 1], reports[|reports| - 1];
      CollectSucceedsIff(front, connect);
      if Collect(reports, connect).Success? {
        forall i | 0 <= i < |reports| ensures connect(reports[i].name).Success? {
          if i < |front| {
            assert front[i] == reports[i];
          }
        }
      } else if Collect(front, connect).Success? {
        assert !connect(reports[|reports| - 1].name).Success?;
      } else {
        var i :| 0 <= i < |front| && !connect(front[i].name).Success?;
        assert front[i] == reports[i];
      }
    }
  }

  /**
    A successful listing holds one model per listed cluster, in listing order:
    the i-th model is that of the cluster connected to under the i-th name.
   */
  lemma {:induction false} CollectInOrder(
    reports: seq<ClusterReport>, connect: string -> Result<Cluster, GatewayError>)
    requires Collect(reports, connect).Success?
    ensures |Collect(reports, connect).value| == |reports|
    ensures forall i :: 0 <= i < |reports| ==>
              && connect(reports[i].name).Success?
              && Collect(reports, connect).value[i] == MakeClusterModel(connect(reports[i].name).value)
  {
    if reports != [] {
      var front := reports[..|reports| - 1];
      var last := reports[|reports| - 1];
      CollectInOrder(front, connect);
      var models := Collect(front, connect).value;
      assert Collect(reports, connect).value == models + [MakeClusterModel(connect(last.name).value)];
      assert forall i :: 0 <= i < |front| ==> front[i] == reports[i];
    }
  }

  /**
    When the listing fails, it fails with the error of the first listed cluster
    that could not be connected to; every cluster before it connected.
   */
  lemma {:induction false} CollectFailsAtFirst(
    reports: seq<ClusterReport>, connect: string -> Result<Cluster, GatewayError>)
    requires Collect(reports, connect).Failure?
    ensures exists j :: 0 <= j < |reports|
              && connect(reports[j].name) == Failure(Collect(reports, connect).error)
              && forall i :: 0 <= i < j ==> connect(reports[i].name).Success?
  {
    var front := reports[..|reports| - 1];
    forall i | 0 <= i < |front| ensures front[i] == reports[i] { }
    if Collect(front, connect).Failure? {
      CollectFailsAtFirst(front, connect);
    } else {
      CollectInOrder(front, connect);
      var j := |reports| - 1;
      assert connect(reports[j].name) == Failure(Collect(reports, connect).error);
    }
  }

  /**
    When connecting to each listed name yields the cluster of that name, the i-th model
    carries the name of the i-th listed cluster.
   */
  lemma NamesFollowListing(gateway: Gateway)
    requires ListModels(gateway).Success?
    requires forall i :: 0 <= i < |gateway.listing.value| ==>
               var n := gateway.listing.value[i].name;
               gateway.connect(n).Success? ==> gateway.connect(n).value.name == n
    ensures var models := ListModels(gateway).value;
            && |models| == |gateway.listing.value|
            && forall i :: 0 <= i < |models| ==> models[i].name == gateway.listing.value[i].name
  {
    CollectInOrder(gateway.listing.value, gateway.connect);
  }

  /** A gateway that lists no clusters gives the empty list. */
  lemma EmptyListing(gateway: Gateway)
    requires gateway.listing == Success([])
    ensures ListModels(gateway) == Success([])
  {
  }

  /**
    A gateway listing one freshly created cluster, which has no workers yet,
    gives one model with that cluster's name, no workers and no cores.
   */
  lemma FreshClusterListing(gateway: Gateway, report: ClusterReport, cluster: Cluster)
    requires gateway.listing == Success([report])
    requires gateway.connect(report.name) == Success(cluster)
    requires cluster.name == report.name && cluster.schedulerInfo.workers == []
    ensures ListModels(gateway) == Success([ClusterModel(report.name, cluster.dashboardLink, 0, 0)])
  {
    assert [report][..0] == [];
    assert Collect([report][..0], gateway.connect) == Success([]);
    assert MakeClusterModel(cluster) == ClusterModel(report.name, cluster.dashboardLink, 0, 0);
    assert Collect([report], gateway.connect) == Success([] + [MakeClusterModel(cluster)]);
    assert [] + [MakeClusterModel(cluster)] == [ClusterModel(report.name, cluster.dashboardLink, 0, 0)];
    assert ListModels(gateway) == Collect([report], gateway.connect);
  }

  /** A cluster whose snapshot lists no workers has no workers and no cores. */
  lemma NoWorkersNoCores(cluster: Cluster)
    requires cluster.schedulerInfo.workers == []
    ensures MakeClusterModel(cluster).workers == 0 && MakeClusterModel(cluster).cores == 0
  {
  }

  /** With no negative thread count in the snapshot, the core count is not negative. */
  lemma CoresNonNegative(cluster: Cluster)
    requires forall e :: e in cluster.schedulerInfo.workers ==> e.info.nthreads >= 0
    ensures MakeClusterModel(cluster).cores >= 0
  {
  }

  /**
    One more worker with `t` threads in the snapshot adds exactly one worker
    and exactly `t` cores; name and dashboard link stay as they were.
   */
  lemma {:induction false} AddWorker(cluster: Cluster, id: WorkerId, info: WorkerInfo)
    requires id !in ToMap(cluster.schedulerInfo.workers)
    ensures DistinctKeys(cluster.schedulerInfo.workers + [Entry(id, info)])
    ensures var grown := cluster.(schedulerInfo := SchedulerInfo(cluster.schedulerInfo.workers + [Entry(id, info)]));
            var before, after := MakeClusterModel(cluster), MakeClusterModel(grown);
            && after.workers == before.workers + 1
            && after.cores == before.cores + info.nthreads
            && after.name == before.name && after.dashboardLink == before.dashboardLink
  {
    var w := cluster.schedulerInfo.workers;
    var e := Entry(id, info);
    assert DistinctKeys(w + [e]) by {
      forall i | 0 <= i < |w| ensures w[i].id != id {
        ToMapLookup(w, i);
      }
    }
    SumThreadsAppend(w, e);
  }
}
