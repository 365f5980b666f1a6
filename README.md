# dask-gateway-dashboard: cluster summaries

A Dafny model of the summary logic of the dask-gateway dashboard
(`dask_gateway_dashboard.py`). The dashboard lists the clusters a Dask Gateway
knows about. For each one it connects to the cluster and reads the scheduler
snapshot (`scheduler_info`). From that it builds a `ClusterModel` record: the
cluster's name, its dashboard link, its worker count and its core count.

- `results.dfy` (module `Results`) holds the `Result` datatype. It stands for
  a call that may raise.
- `scheduler.dfy` (module `Scheduler`) models `scheduler_info["workers"]`, the
  dictionary from worker address to worker description. A Python dictionary
  keeps insertion order and never holds a key twice. It is therefore a
  sequence of `Entry` values whose ids are pairwise distinct (the subset type
  `WorkerTable`). `ToMap` gives the dictionary the sequence denotes.
  `SumThreads` is the in-order sum that `sum(...)` computes. `MapThreads` is a
  reference sum over the map that does not depend on any order.
- `dashboard.dfy` (module `Dashboard`) holds:
  - `MakeClusterModel`, the model of `make_cluster_model`;
  - `ListClusters`, a method with a loop that appends one model per listed
    cluster;
  - `Collect` and `ListModels`, the specification functions that
    `ListClusters` is proved against.

  The gateway client is a network collaborator. It is a `Gateway` value: the
  outcome of the listing call, and a function from a cluster name to the
  outcome of connecting to that name. A failure anywhere propagates, as an
  uncaught exception does in the source. No partial list is returned.

Only what `dask_gateway_dashboard.py` does is modelled. There, every listed
cluster is connected to, whatever its status.

## Model

| member | source | states |
|---|---|---|
| `Dashboard.MakeClusterModel` | dask_gateway_dashboard.py:23-33 | name and dashboard link are copied unchanged; `workers` is the number of keys in the worker dictionary; `cores` is the order-independent sum of `nthreads` over that dictionary |
| `Scheduler.CountIsMapSize` | dask_gateway_dashboard.py:27 | `len(workers)` equals the number of distinct workers in the dictionary |
| `Scheduler.SumThreadsIsMapThreads` | dask_gateway_dashboard.py:26 | the in-order sum over `workers.values()` equals the reference sum over the dictionary, so the core count does not depend on iteration order |
| `Scheduler.SumThreads` | dask_gateway_dashboard.py:26 | when no worker has a negative thread count, the sum is not negative |
| `Scheduler.ToMapLookup` | dask_gateway_dashboard.py:25-26 | every entry of the snapshot is what the dictionary holds under that worker's id |
| `Scheduler.ToMapKeys` | dask_gateway_dashboard.py:25-27 | the dictionary's keys are exactly the worker ids of the snapshot |
| `Dashboard.NoWorkersNoCores` | dask_gateway_dashboard.py:26-27 | a snapshot with no workers gives 0 workers and 0 cores |
| `Dashboard.CoresNonNegative` | dask_gateway_dashboard.py:26 | with non-negative thread counts, the core count is non-negative |
| `Dashboard.AddWorker` | dask_gateway_dashboard.py:26-27 | a snapshot with one more (new) worker of `t` threads has exactly one more worker and exactly `t` more cores; name and link unchanged |
| `Dashboard.ListClusters` | dask_gateway_dashboard.py:36-45 | the loop's result is exactly `ListModels` of the gateway: listing failure, first connection failure, or the list of models of all listed clusters |
| `Dashboard.FailureIsFinal` | dask_gateway_dashboard.py:40-44 | once connecting to a listed cluster has failed, the later clusters change nothing: the whole call fails with that error |
| `Dashboard.CollectSucceedsIff` | dask_gateway_dashboard.py:40-44 | the listing yields a list if and only if every listed cluster can be connected to |
| `Dashboard.CollectInOrder` | dask_gateway_dashboard.py:38-45 | a successful listing has one model per listed cluster; the i-th is `MakeClusterModel` of the cluster connected to under the i-th name |
| `Dashboard.CollectFailsAtFirst` | dask_gateway_dashboard.py:40-44 | a failed listing carries the error of the first listed cluster that could not be connected to; all clusters before it connected |
| `Dashboard.NamesFollowListing` | dask_gateway_dashboard.py:41-43 | when connecting to each listed name yields the cluster of that name, the i-th model's name is the i-th listed name |
| `Dashboard.EmptyListing` | tests/test_app.py:4-6 | a gateway that lists no clusters gives `[]` |
| `Dashboard.FreshClusterListing` | tests/test_app.py:7-13 | one freshly created cluster with no workers gives exactly one model with its name, 0 workers and 0 cores |

## Left out

- The HTTP layer is not modelled: the FastAPI app, the `/` route reading `index.html`, and `get_clusters` wrapping the list in a `JSONResponse` (dask_gateway_dashboard.py:9-11, 48-57). These are routing and file I/O.
- The `dask_gateway.Gateway` client is not modelled. This covers `gateway.list_clusters()`, `gateway.connect()` and their async context managers. They are network I/O in a foreign library. They appear only as the `Gateway` value's two outcomes, so releasing a connection on exit is not modelled.
- Async scheduling is not modelled. The model is a plain sequential loop.
- Logging (dask_gateway_dashboard.py:13) is not modelled.
- A missing key is not modelled. In the source, a `scheduler_info` without `"workers"` or a worker without `"nthreads"` raises `KeyError`. The model's types always carry both, so that error path does not exist there.
- `cores` is an `int`, with no floating-point concerns. It is annotated `float` in the source but is always a sum of integer thread counts.
- Gateway errors are one opaque `GatewayError`. The model does not tell exception kinds apart.
- Two calls on an unchanged gateway give equal lists. The model shows this only because `ListModels` is a function of the gateway value; there is no separate lemma for it.
- The test harness is not modelled: the uvicorn server, the browser page checks, the temporary gateway and the mock patching. It serves only as evidence for `EmptyListing` and `FreshClusterListing`.
