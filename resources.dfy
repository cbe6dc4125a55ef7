/**
 * Kubernetes resource requirements. A quantity is its integer value: CPU in
 * milli-cores, memory and storage in bytes.
 */
module Resources {
  import opened Wrappers
  import opened GoInt

  /** A resource name; `Other` never spells one of the three named keys ("cpu", "memory", "storage"). */
  datatype ResourceKey = Cpu | Memory | Storage | Other(name: string)

  type ResourceList = map<ResourceKey, Int64>

  datatype ResourceRequirements = ResourceRequirements(limits: ResourceList, requests: ResourceList)

  /** "200m": the default CPU request, in milli-cores. */
  const DefaultCpuRequest: Int64 := 200
  /** "1Gi": the default memory request, in bytes. */
  const DefaultMemoryRequest: Int64 := 1073741824
  /** "8Gi": the default storage request, in bytes. */
  const DefaultStorageRequest: Int64 := 8589934592

  /** The memory entry of a resource list, if there is one. */
  function MemoryOf(list: ResourceList): (m: Option<Int64>)
    ensures m.Some? <==> Memory in list
    ensures m.Some? ==> m.value == list[Memory]
  {
    if Memory in list then Some(list[Memory]) else None
  }
}
