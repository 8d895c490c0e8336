/** `find_memory_type`: the search for a device memory type that the
    resource may live in and that has every requested property. */
module Memory {
  import opened Vulkan

  /** VK_MAX_MEMORY_TYPES: the length of the `memory_types` array. */
  const MAX_MEMORY_TYPES: nat := 32

  const HOST_VISIBLE: bv32 := 0x2
  const HOST_COHERENT: bv32 := 0x4

  /** VkPhysicalDeviceMemoryProperties, reduced to the property flags of each
      memory type. */
  datatype MemoryProperties = MemoryProperties(memoryTypeCount: nat, propertyFlags: seq<bv32>)

  /** The shape Vulkan guarantees: a fixed array of 32 entries, of which the
      first `memoryTypeCount` are meaningful. */
  predicate WellFormed(p: MemoryProperties)
  {
    |p.propertyFlags| == MAX_MEMORY_TYPES && p.memoryTypeCount <= MAX_MEMORY_TYPES
  }

  /** Memory type `i` is allowed by `typeFilter` and has all of `properties`. */
  predicate Suitable(p: MemoryProperties, typeFilter: bv32, properties: bv32, i: nat)
    requires WellFormed(p) && i < MAX_MEMORY_TYPES
  {
    typeFilter & (1 << i) != 0 && p.propertyFlags[i] & properties == properties
  }

  /** Some memory type below `memoryTypeCount` is suitable. */
  ghost predicate HasSuitableType(p: MemoryProperties, typeFilter: bv32, properties: bv32)
    requires WellFormed(p)
  {
    exists j :: 0 <= j < p.memoryTypeCount && Suitable(p, typeFilter, properties, j)
  }

  /** The lowest suitable index below `memoryTypeCount`; `None` where the
      source panics with "Failed to find suitable memory type". */
  method FindMemoryType(p: MemoryProperties, typeFilter: bv32, properties: bv32) returns (r: Option<nat>)
    requires WellFormed(p)
    ensures r.Some? ==> r.value < p.memoryTypeCount && Suitable(p, typeFilter, properties, r.value)
    ensures r.Some? ==> forall j :: 0 <= j < r.value ==> !Suitable(p, typeFilter, properties, j)
    ensures r.None? ==> forall j :: 0 <= j < p.memoryTypeCount ==> !Suitable(p, typeFilter, properties, j)
    ensures r.Some? <==> HasSuitableType(p, typeFilter, properties)
  {
    var i := 0;
    while i < p.memoryTypeCount
      invariant i <= p.memoryTypeCount
      invariant forall j :: 0 <= j < i ==> !Suitable(p, typeFilter, properties, j)
    {
      if typeFilter & (1 << i) != 0 && p.propertyFlags[i] & properties == properties {
        assert Suitable(p, typeFilter, properties, i);
        return Some(i);
      }
      i := i + 1;
    }
    return None;
  }
}
