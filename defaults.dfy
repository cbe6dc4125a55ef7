/**
 * The defaulting engine: fills in the fields of a cluster specification that
 * the user left empty. Each specification record is a class whose
 * `UpdateDefaults` method changes its fields in place; the value each method
 * leaves behind is specified by a function on the record's value, and the
 * properties of defaulting (what is kept, what is established, idempotence)
 * are lemmas about those functions.
 */
module Defaults {
  import opened Wrappers
  import opened GoInt
  import opened Resources
  import opened Config
  import Decimal

  /** The MySQL option derived from the memory request. */
  const BufferPoolKey := "innodb-buffer-pool-size"
  /** The share of the memory request given to the InnoDB buffer pool, in percent. */
  const InnodbBufferSizePercent := 80
  /** The largest memory request for which `80 * mem` fits in an int64. */
  const MaxExactMemory := MaxInt64 / InnodbBufferSizePercent

  /** Free-form MySQL configuration, option name to value. */
  type MysqlConf = map<string, string>

  datatype AccessMode = ReadWriteOnce | ReadOnlyMany | ReadWriteMany

  datatype PodSpecValue = PodSpecValue(imagePullPolicy: string, resources: ResourceRequirements)

  datatype VolumeSpecValue = VolumeSpecValue(accessModes: seq<AccessMode>, resources: ResourceRequirements)

  datatype ClusterSpecValue = ClusterSpecValue(
    mysqlVersion: string,
    podSpec: PodSpecValue,
    volumeSpec: VolumeSpecValue,
    mysqlConf: MysqlConf)

  /** Requests of 200m CPU and 1Gi memory, and no limits. */
  const DefaultPodResources := ResourceRequirements(map[], map[Cpu := DefaultCpuRequest, Memory := DefaultMemoryRequest])

  /** A request of 8Gi storage, and no limits. */
  const DefaultVolumeResources := ResourceRequirements(map[], map[Storage := DefaultStorageRequest])

  /** The pod settings after defaulting. */
  function DefaultPodSpec(p: PodSpecValue, opt: Options): (r: PodSpecValue)
    ensures p.imagePullPolicy != "" ==> r.imagePullPolicy == p.imagePullPolicy
    ensures p.imagePullPolicy == "" ==> r.imagePullPolicy == opt.imagePullPolicy
    ensures p.resources.requests != map[] ==> r.resources == p.resources
    ensures p.resources.requests == map[] ==> r.resources == DefaultPodResources
    ensures r.resources.requests != map[]
  {
    var policy := if p.imagePullPolicy == "" then opt.imagePullPolicy else p.imagePullPolicy;
    var resources := if p.resources.requests == map[] then DefaultPodResources else p.resources;
    assert Cpu in DefaultPodResources.requests;
    PodSpecValue(policy, resources)
  }

  /** The volume settings after defaulting. */
  function DefaultVolumeSpec(v: VolumeSpecValue): (r: VolumeSpecValue)
    ensures v.accessModes != [] ==> r.accessModes == v.accessModes
    ensures v.accessModes == [] ==> r.accessModes == [ReadWriteOnce]
    ensures v.resources.requests != map[] ==> r.resources == v.resources
    ensures v.resources.requests == map[] ==> r.resources == DefaultVolumeResources
    ensures r.accessModes != [] && r.resources.requests != map[]
  {
    var modes := if v.accessModes == [] then [ReadWriteOnce] else v.accessModes;
    var resources := if v.resources.requests == map[] then DefaultVolumeResources else v.resources;
    assert Storage in DefaultVolumeResources.requests;
    VolumeSpecValue(modes, resources)
  }

  /**
   * The buffer-pool size for a memory request of `mem` bytes: 80 percent,
   * multiplied before dividing, in Go int64 arithmetic (the product wraps
   * around past the int64 range, the division truncates toward zero).
   */
  function BufferPoolSize(mem: Int64): (r: Int64)
    ensures 0 <= mem <= MaxExactMemory ==> 0 <= r <= mem && 100 * r <= 80 * mem < 100 * r + 100
    ensures -MaxExactMemory <= mem < 0 ==> mem <= r <= 0 && 100 * r - 100 < 80 * mem <= 100 * r
  {
    var product := Wrap64(InnodbBufferSizePercent * mem);
    var q := Quo(product, 100);
    assert MinInt64 <= q <= MaxInt64;
    q
  }

  /**
   * The MySQL configuration after the buffer-pool step, given the memory
   * requests the pod has at that point.
   */
  function DefaultBufferPool(conf: MysqlConf, requests: ResourceList): (r: MysqlConf)
    ensures forall k :: k != BufferPoolKey ==> (k in r <==> k in conf)
    ensures forall k :: k in conf && k != BufferPoolKey ==> r[k] == conf[k]
    ensures BufferPoolKey in conf ==> r == conf
    ensures BufferPoolKey !in conf ==> (BufferPoolKey in r <==> Memory in requests)
    ensures BufferPoolKey !in conf && Memory in requests ==>
              Decimal.Parse(r[BufferPoolKey]) == Some(BufferPoolSize(requests[Memory]) as int)
  {
    if BufferPoolKey in conf then conf
    else match MemoryOf(requests)
      case None => conf
      case Some(mem) =>
        var size := BufferPoolSize(mem);
        Decimal.FormatParse(size);
        conf[BufferPoolKey := Decimal.Format(size)]
  }

  /** The whole cluster specification after defaulting, step by step as the source does it. */
  function DefaultClusterSpec(s: ClusterSpecValue, opt: Options): (r: ClusterSpecValue)
    ensures r.mysqlVersion == (if s.mysqlVersion == "" then opt.mysqlImageTag else s.mysqlVersion)
    ensures r.podSpec == DefaultPodSpec(s.podSpec, opt)
    ensures r.volumeSpec == DefaultVolumeSpec(s.volumeSpec)
    ensures r.mysqlConf == DefaultBufferPool(s.mysqlConf, r.podSpec.resources.requests)
  {
    var version := if s.mysqlVersion == "" then opt.mysqlImageTag else s.mysqlVersion;
    var pod := DefaultPodSpec(s.podSpec, opt);
    var conf := DefaultBufferPool(s.mysqlConf, pod.resources.requests);
    ClusterSpecValue(version, pod, DefaultVolumeSpec(s.volumeSpec), conf)
  }

  class PodSpec {
    var imagePullPolicy: string
    var resources: ResourceRequirements

    constructor (imagePullPolicy: string, resources: ResourceRequirements)
      ensures Value() == PodSpecValue(imagePullPolicy, resources)
    {
      this.imagePullPolicy := imagePullPolicy;
      this.resources := resources;
    }

    function Value(): PodSpecValue
      reads this
    {
      PodSpecValue(imagePullPolicy, resources)
    }

    /** Fills in the pull policy and, all or nothing, the resource requests; never fails. */
    method UpdateDefaults(opt: Options) returns (err: Option<string>)
      modifies this
      ensures err == None
      ensures Value() == DefaultPodSpec(old(Value()), opt)
    {
      if |imagePullPolicy| == 0 {
        imagePullPolicy := opt.imagePullPolicy;
      }
      if resources.requests == map[] {
        resources := ResourceRequirements(map[], map[Cpu := DefaultCpuRequest, Memory := DefaultMemoryRequest]);
      }
      err := None;
    }
  }

  class VolumeSpec {
    var accessModes: seq<AccessMode>
    var resources: ResourceRequirements

    constructor (accessModes: seq<AccessMode>, resources: ResourceRequirements)
      ensures Value() == VolumeSpecValue(accessModes, resources)
    {
      this.accessModes := accessModes;
      this.resources := resources;
    }

    function Value(): VolumeSpecValue
      reads this
    {
      VolumeSpecValue(accessModes, resources)
    }

    /** Fills in the access modes and the storage request; never fails. */
    method UpdateDefaults() returns (err: Option<string>)
      modifies this
      ensures err == None
      ensures Value() == DefaultVolumeSpec(old(Value()))
    {
      if |accessModes| == 0 {
        accessModes := [ReadWriteOnce];
      }
      if resources.requests == map[] {
        resources := ResourceRequirements(map[], map[Storage := DefaultStorageRequest]);
      }
      err := None;
    }
  }

  class ClusterSpec {
    var mysqlVersion: string
    const podSpec: PodSpec
    const volumeSpec: VolumeSpec
    var mysqlConf: MysqlConf

    constructor (s: ClusterSpecValue)
      ensures Value() == s && fresh(podSpec) && fresh(volumeSpec)
    {
      mysqlVersion := s.mysqlVersion;
      podSpec := new PodSpec(s.podSpec.imagePullPolicy, s.podSpec.resources);
      volumeSpec := new VolumeSpec(s.volumeSpec.accessModes, s.volumeSpec.resources);
      mysqlConf := s.mysqlConf;
    }

    function Value(): ClusterSpecValue
      reads this, podSpec, volumeSpec
    {
      ClusterSpecValue(mysqlVersion, podSpec.Value(), volumeSpec.Value(), mysqlConf)
    }

    /**
     * Fills in the version tag, the pod settings, the derived buffer-pool
     * size and the volume settings, in that order; returns the first error a
     * delegate reports, and neither delegate reports one.
     */
    method UpdateDefaults(opt: Options) returns (err: Option<string>)
      modifies this, podSpec, volumeSpec
      ensures err == None
      ensures Value() == DefaultClusterSpec(old(Value()), opt)
    {
      if |mysqlVersion| == 0 {
        mysqlVersion := opt.mysqlImageTag;
      }
      err := podSpec.UpdateDefaults(opt);
      if err.Some? {
        return;
      }
      if BufferPoolKey !in mysqlConf {
        var mem := MemoryOf(podSpec.resources.requests);
        if mem.Some? {
          var size := BufferPoolSize(mem.value);
          mysqlConf := mysqlConf[BufferPoolKey := Decimal.Format(size)];
        }
      }
      err := volumeSpec.UpdateDefaults();
    }
  }

  /** Defaulting a cluster specification a second time changes nothing. */
  lemma DefaultClusterSpecIdempotent(s: ClusterSpecValue, opt: Options)
    ensures DefaultClusterSpec(DefaultClusterSpec(s, opt), opt) == DefaultClusterSpec(s, opt)
  {
    var once := DefaultClusterSpec(s, opt);
    assert DefaultPodSpec(once.podSpec, opt) == once.podSpec;
    assert DefaultVolumeSpec(once.volumeSpec) == once.volumeSpec;
    assert DefaultBufferPool(once.mysqlConf, once.podSpec.resources.requests) == once.mysqlConf;
  }

  /** Defaulting never overwrites a value the user set. */
  lemma DefaultClusterSpecKeeps(s: ClusterSpecValue, opt: Options)
    ensures var r := DefaultClusterSpec(s, opt);
      && (s.mysqlVersion != "" ==> r.mysqlVersion == s.mysqlVersion)
      && (s.podSpec.imagePullPolicy != "" ==> r.podSpec.imagePullPolicy == s.podSpec.imagePullPolicy)
      && (s.podSpec.resources.requests != map[] ==> r.podSpec.resources == s.podSpec.resources)
      && (s.volumeSpec.accessModes != [] ==> r.volumeSpec.accessModes == s.volumeSpec.accessModes)
      && (s.volumeSpec.resources.requests != map[] ==> r.volumeSpec.resources == s.volumeSpec.resources)
      && (forall k :: k in s.mysqlConf ==> k in r.mysqlConf && r.mysqlConf[k] == s.mysqlConf[k])
      && (forall k :: k in r.mysqlConf && k != BufferPoolKey ==> k in s.mysqlConf)
  {
  }

  /**
   * After defaulting, the version is the configured tag when it was empty, the
   * pod and the volume each have some resource request and the volume an
   * access mode, and the buffer-pool option is present exactly when it was
   * already there or the pod has a memory request.
   */
  lemma DefaultClusterSpecEstablishes(s: ClusterSpecValue, opt: Options)
    ensures var r := DefaultClusterSpec(s, opt);
      && (s.mysqlVersion == "" ==> r.mysqlVersion == opt.mysqlImageTag)
      && r.podSpec.resources.requests != map[]
      && r.volumeSpec.accessModes != []
      && r.volumeSpec.resources.requests != map[]
      && (BufferPoolKey in r.mysqlConf <==> BufferPoolKey in s.mysqlConf || Memory in r.podSpec.resources.requests)
  {
  }

  /**
   * A pod without requests is given 1Gi of memory, so a cluster without a
   * buffer-pool option gets 858993459 bytes: 80 percent of 1073741824,
   * truncated rather than rounded.
   */
  lemma DefaultBufferPoolForDefaultMemory(s: ClusterSpecValue, opt: Options)
    requires s.podSpec.resources.requests == map[]
    requires BufferPoolKey !in s.mysqlConf
    ensures var r := DefaultClusterSpec(s, opt);
      && BufferPoolKey in r.mysqlConf
      && Decimal.Parse(r.mysqlConf[BufferPoolKey]) == Some(858993459)
  {
    assert BufferPoolSize(DefaultMemoryRequest) == 858993459;
  }

  /**
   * Requests are all or nothing: a pod that requests only CPU gets no memory
   * request, and so the buffer-pool option stays unset.
   */
  lemma CpuOnlyRequestGetsNoMemory(s: ClusterSpecValue, opt: Options, cpu: Int64)
    requires s.podSpec.resources.requests == map[Cpu := cpu]
    requires BufferPoolKey !in s.mysqlConf
    ensures var r := DefaultClusterSpec(s, opt);
      && r.podSpec.resources == s.podSpec.resources
      && Memory !in r.podSpec.resources.requests
      && r.mysqlConf == s.mysqlConf
  {
    assert Cpu in s.podSpec.resources.requests;
  }

  /** A pod without requests loses any limits it had: the resources are replaced wholesale. */
  lemma DefaultPodSpecDropsLimits(p: PodSpecValue, opt: Options)
    requires p.resources.requests == map[]
    ensures DefaultPodSpec(p, opt).resources.limits == map[]
    ensures DefaultPodSpec(p, opt).resources.requests
         == map[Cpu := DefaultCpuRequest, Memory := DefaultMemoryRequest]
  {
  }

  /** An empty volume specification becomes one ReadWriteOnce access mode and an 8Gi storage request. */
  lemma DefaultEmptyVolume()
    ensures var r := DefaultVolumeSpec(VolumeSpecValue([], ResourceRequirements(map[], map[])));
      && r.accessModes == [ReadWriteOnce]
      && r.resources.requests == map[Storage := 8589934592]
      && r.resources.limits == map[]
  {
  }
}
