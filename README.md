# MySQL cluster naming, defaulting and topology resolution

A Dafny model of the core of the `titanium` MySQL operator's cluster API type
(`pkg/apis/titanium/v1alpha1/cluster.go`): the naming convention for a
cluster's Kubernetes resources and pod hostnames, the defaulting engine that
fills in an incomplete cluster specification in place, and the topology
resolver that picks the master and a healthy replica from the orchestrator's
answer or falls back to a hostname built from the naming convention.

Files, one module each:

- `wrappers.dfy` (`Wrappers`): `Option` and `Result` (a value or a Go `error`).
- `goint.dfy` (`GoInt`): the `int64` range, two's-complement wrap-around and Go's truncating division.
- `decimal.dfy` (`Decimal`): Go's `%d` rendering of integers, negative ones included, and its inverse.
- `config.dfy` (`Config`): the operator's options, an immutable value passed explicitly.
- `resources.dfy` (`Resources`): resource lists as maps from resource name to an integer quantity (CPU in milli-cores, memory and storage in bytes), the lookup of the memory entry, the default quantities 200m, 1Gi and 8Gi.
- `naming.dfy` (`Naming`): resource names, pod hostnames, the MySQL image reference.
- `defaults.dfy` (`Defaults`): the classes `PodSpec`, `VolumeSpec` and `ClusterSpec` whose `UpdateDefaults` methods change their fields in place, the functions on their values that specify those methods, and the lemmas about defaulting.
- `topology.dfy` (`Topology`): master and healthy-replica resolution; the replica choice is a loop over the orchestrator's list, proved against a recursive specification.

The orchestrator's answers are parameters: a `Result<string>` for the master
query and a `Result<seq<Replica>>` for the replica query. The orchestrator URI
is read from the options, as the source reads it through `GetOrcUri`.

Requests are filled in all or nothing: a pod that requests only CPU keeps no
memory request (`Defaults.CpuOnlyRequestGetsNoMemory`), and after defaulting
all the model promises is that some request is present
(`Defaults.DefaultClusterSpecEstablishes`).

## Model

| member | source | states |
|---|---|---|
| `Naming.NameForResource` | pkg/apis/titanium/v1alpha1/cluster.go:159-161 | the resource name is the cluster name followed by `-mysql` |
| `Naming.NameIgnoresRole` | pkg/apis/titanium/v1alpha1/cluster.go:155-161 | every role (headless service, stateful set, config map, env secret, backup job) gets the same name |
| `Naming.NameForResourceInjective` | pkg/apis/titanium/v1alpha1/cluster.go:159-161 | different clusters get different resource names |
| `Naming.PodHostName` | pkg/apis/titanium/v1alpha1/cluster.go:205-208 | the hostname of pod `p` is `<cluster>-mysql-<p>.<cluster>-mysql`, with `p` printed as `%d` prints it; `Naming.PodHostNameOrdinal` and `Naming.PodHostNameInjective` state that the ordinal reads back and that distinct ordinals give distinct hostnames |
| `Naming.PodHostNameShape` | pkg/apis/titanium/v1alpha1/cluster.go:205-208 | the hostname of pod `p` is `<cluster>-mysql-<p>.<cluster>-mysql`, from the cluster name and `p` alone |
| `Naming.PodHostNameOrdinal` | pkg/apis/titanium/v1alpha1/cluster.go:205-208 | the ordinal, negative or not, can be read back from a pod hostname |
| `Naming.PodHostNameInjective` | pkg/apis/titanium/v1alpha1/cluster.go:205-208 | two ordinals of one cluster never share a hostname |
| `Naming.MysqlImage` | pkg/apis/titanium/v1alpha1/cluster.go:91-94 | the image is the configured repository, a colon, then the version; `Naming.MysqlImageTag` states that the version reads back as the image's tag |
| `Naming.MysqlImageTag` | pkg/apis/titanium/v1alpha1/cluster.go:91-94 | the image starts with the configured repository and its tag (text after the last colon) is the cluster's MySQL version, for a version without a colon |
| `Decimal.FormatParse` | pkg/apis/titanium/v1alpha1/cluster.go:206 | the `%d` rendering of an ordinal is read back as the same integer, so it loses nothing |
| `Defaults.DefaultPodSpec` | pkg/apis/titanium/v1alpha1/cluster.go:104-118 | an empty pull policy becomes the configured one and a set one is kept; with no request the resources become exactly 200m CPU and 1Gi memory; with any request they are kept; afterwards some request is present |
| `Defaults.PodSpec.UpdateDefaults` | pkg/apis/titanium/v1alpha1/cluster.go:104-118 | changes the pod settings in place to their defaulted value and returns no error |
| `Defaults.DefaultPodSpecDropsLimits` | pkg/apis/titanium/v1alpha1/cluster.go:109-116 | replacing the resources of a pod without requests drops its limits |
| `Defaults.DefaultVolumeSpec` | pkg/apis/titanium/v1alpha1/cluster.go:121-137 | empty access modes become exactly `[ReadWriteOnce]`, no storage request becomes exactly 8Gi, set fields are kept, afterwards both are non-empty |
| `Defaults.VolumeSpec.UpdateDefaults` | pkg/apis/titanium/v1alpha1/cluster.go:121-137 | changes the volume settings in place to their defaulted value and returns no error |
| `Defaults.DefaultEmptyVolume` | pkg/apis/titanium/v1alpha1/cluster.go:121-137 | an empty volume specification gets one access mode, ReadWriteOnce, and a storage request of 8589934592 bytes |
| `Defaults.BufferPoolSize` | pkg/apis/titanium/v1alpha1/cluster.go:54-58 | for a memory request that does not overflow, the size is 80 percent of it truncated toward zero, and at most the request when the request is not negative |
| `Defaults.DefaultBufferPool` | pkg/apis/titanium/v1alpha1/cluster.go:54-65 | an existing buffer-pool option is kept; an absent one is added exactly when a memory request exists, as the decimal text of its buffer-pool size; every other option is unchanged |
| `Defaults.DefaultClusterSpec` | pkg/apis/titanium/v1alpha1/cluster.go:44-68 | the defaulted cluster specification: version step, then pod step, then buffer-pool step on the defaulted pod's requests, then volume step; `Defaults.DefaultClusterSpecIdempotent`, `Defaults.DefaultClusterSpecKeeps` and `Defaults.DefaultClusterSpecEstablishes` state its properties |
| `Defaults.ClusterSpec.UpdateDefaults` | pkg/apis/titanium/v1alpha1/cluster.go:44-68 | fills in version, pod settings, buffer-pool option and volume settings in place, in the source's order, and returns no error |
| `Defaults.DefaultClusterSpecIdempotent` | pkg/apis/titanium/v1alpha1/cluster.go:44-68 | defaulting twice gives the same specification as defaulting once |
| `Defaults.DefaultClusterSpecKeeps` | pkg/apis/titanium/v1alpha1/cluster.go:44-68 | no value the user set is overwritten and no option other than the buffer-pool size is added |
| `Defaults.DefaultClusterSpecEstablishes` | pkg/apis/titanium/v1alpha1/cluster.go:44-68 | an empty version becomes the configured tag; pod and volume have requests and the volume an access mode; the buffer-pool option is present iff it was or the defaulted pod requests memory |
| `Defaults.DefaultBufferPoolForDefaultMemory` | pkg/apis/titanium/v1alpha1/cluster.go:54-65 | a pod left with the default 1Gi yields a buffer pool of 858993459 bytes, truncated and not rounded |
| `Defaults.CpuOnlyRequestGetsNoMemory` | pkg/apis/titanium/v1alpha1/cluster.go:109-116 | a pod requesting only CPU gets no memory request, so the buffer-pool option stays unset |
| `Topology.LastEligible` | pkg/apis/titanium/v1alpha1/cluster.go:175-180 | the result is the hostname of an eligible replica (lag known and at most 5) after which no replica is eligible; none exactly when no replica is eligible |
| `Topology.HealthySlaveHost` | pkg/apis/titanium/v1alpha1/cluster.go:163-185 | without URI or on a query error the host is pod `readyNodes - 1`; otherwise the last eligible replica, or that pod when none is eligible |
| `Topology.GetHealthySlaveHost` | pkg/apis/titanium/v1alpha1/cluster.go:163-185 | the loop over the replica list returns exactly the specified healthy replica |
| `Topology.HealthySlaveHostOrigin` | pkg/apis/titanium/v1alpha1/cluster.go:163-185 | the answer is always a replica the orchestrator listed as eligible and not superseded, or the structural pod `readyNodes - 1`, never anything else |
| `Topology.HealthySlaveHostExample` | pkg/apis/titanium/v1alpha1/cluster.go:175-180 | of replicas lagging 10, 3 and unknown seconds the second is chosen |
| `Topology.HealthySlaveHostIsLastNotLeastLag` | pkg/apis/titanium/v1alpha1/cluster.go:175-180 | the last eligible replica wins over a less lagging earlier one, and a negative lag is eligible |
| `Topology.HealthySlaveHostNoReadyNodes` | pkg/apis/titanium/v1alpha1/cluster.go:164-165 | with no ready pod the fallback is `<cluster>-mysql--1.<cluster>-mysql` |
| `Topology.MasterHost` | pkg/apis/titanium/v1alpha1/cluster.go:187-203 | without URI or on a query error the master is pod 0; otherwise exactly the orchestrator's hostname |
| `Topology.MasterHostWithoutOrchestrator` | pkg/apis/titanium/v1alpha1/cluster.go:187-190 | without URI the master is pod 0 whatever the orchestrator would answer |
| `Topology.MasterHostOrigin` | pkg/apis/titanium/v1alpha1/cluster.go:187-203 | the master is the orchestrator's answer or the hostname of pod 0, never anything else |

## Left out

- The orchestrator client (`orc.NewFromUri`, `Master`, `ClusterOSCReplicas`): network I/O in a package that is not part of this model; each query's single answer is a parameter, and the client constructor reports no error, so any failure appears as the query's error, the `Err` parameter.
- `glog` logging: no effect on results.
- `AsOwnerReference`: Kubernetes object scaffolding.
- The option getters `GetTitaniumImage`, `GetMetricsExporterImage`, `GetOrcUri`, `GetOrcTopologySecret` and the `init` that loads the package-global options: the options are the `Config.Options` value passed in, and the resolvers read `orchestratorUri` from it.
- `MysqlCluster.UpdateDefaults` and `MysqlCluster.GetNameForResource`: one-line delegations to `ClusterSpec.UpdateDefaults` and `getNameForResource` with the cluster's name.
- Kubernetes quantities: `MustParse` of "200m", "1Gi" and "8Gi" are the integer constants 200 (milli-cores), 1073741824 and 8589934592 (bytes); fractional quantities and the rounding of `Value()` are not modelled.
- `NewQuantity(..., DecimalSI).String()` is modelled as plain decimal digits; the library's SI-suffix canonical form (a multiple of 1000 printed as, say, `1k`) is not modelled.
- `Requests.Memory()` is modelled as the lookup of the memory entry, absent when there is none, following the `mem != nil` branch as written. The Kubernetes `ResourceList.Memory()` returns a zero quantity, never nil, for a missing entry, so the running operator sets `innodb-buffer-pool-size` to `"0"` for a pod that requests only CPU; the "stays unset" half of `Defaults.CpuOnlyRequestGetsNoMemory` and the buffer-pool "iff" of `Defaults.DefaultClusterSpecEstablishes` hold only for the modelled lookup.
- Go's distinction between a nil and an empty map or slice (`make(MysqlConf)`): both are the empty map or sequence here.
- The fields of `ClusterSpec`, `PodSpec` and `VolumeSpec` that defaulting does not touch.
- `readyNodes - 1` is computed on unbounded integers; a wrap-around of the status counter's Go integer type is not modelled.
- Defaults.BufferPoolSize: states the 80 percent bound only for memory requests of magnitude at most `MaxInt64 / 80` bytes; beyond that the product wraps around as Go's `int64` does and only the definition says what results.
- Naming.MysqlImageTag: the tag is read back only for versions without a colon; for others the reference is still built as `image:version`, but its tag is ambiguous.
