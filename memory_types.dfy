/** Memory-type search for the vertex buffer (findMemoryType in
    lib/fractal/renderer/FTL_Renderer.cpp), following the selection rule of
    the "Device Memory" chapter of the Vulkan specification: the lowest
    memory type index that the resource's `memoryTypeBits` allows and whose
    property flags include every requested flag. */
module MemoryTypes {
  import opened Vk

  /** Bit `i` of `typeFilter` is set: `typeFilter & (1 << i)`. */
  predicate TypeAllowed(typeFilter: Flags, i: nat)
    requires i < 32
  {
    typeFilter & (1 << i) != 0
  }

  /** The type's flags contain every requested flag. */
  predicate HasProperties(flags: Flags, properties: Flags) {
    flags & properties == properties
  }

  /** Memory type `i` is one the search accepts. */
  predicate Matches(memoryTypes: seq<Flags>, typeFilter: Flags, properties: Flags, i: nat) {
    && i < |memoryTypes|
    && i < 32
    && TypeAllowed(typeFilter, i)
    && HasProperties(memoryTypes[i], properties)
  }

  /** `i` is the least index the search accepts */
  predicate IsLeastMatch(memoryTypes: seq<Flags>, typeFilter: Flags, properties: Flags, i: nat) {
    && Matches(memoryTypes, typeFilter, properties, i)
    && forall j :: 0 <= j < i ==> !Matches(memoryTypes, typeFilter, properties, j)
  }

  /** Some memory type is accepted */
  predicate AnyMatches(memoryTypes: seq<Flags>, typeFilter: Flags, properties: Flags) {
    exists i :: 0 <= i < |memoryTypes| && Matches(memoryTypes, typeFilter, properties, i)
  }

  /** The first index from `i` on that the search accepts, or the count of
      memory types when there is none */
  function FirstMatchFrom(memoryTypes: seq<Flags>, typeFilter: Flags, properties: Flags, i: nat): (k: nat)
    requires i <= |memoryTypes|
    ensures i <= k <= |memoryTypes|
    ensures k < |memoryTypes| ==> Matches(memoryTypes, typeFilter, properties, k)
    ensures forall j :: i <= j < k ==> !Matches(memoryTypes, typeFilter, properties, j)
    decreases |memoryTypes| - i
  {
    if i == |memoryTypes| then i
    else if Matches(memoryTypes, typeFilter, properties, i) then i
    else FirstMatchFrom(memoryTypes, typeFilter, properties, i + 1)
  }

  /** The least accepted index, or the count of memory types when no type
      is accepted */
  function LeastMatch(memoryTypes: seq<Flags>, typeFilter: Flags, properties: Flags): (k: nat)
    ensures k <= |memoryTypes|
    ensures k < |memoryTypes| <==> AnyMatches(memoryTypes, typeFilter, properties)
    ensures k < |memoryTypes| ==> IsLeastMatch(memoryTypes, typeFilter, properties, k)
  {
    FirstMatchFrom(memoryTypes, typeFilter, properties, 0)
  }

  /** At most one index is the least accepted one. */
  lemma LeastMatchUnique(memoryTypes: seq<Flags>, typeFilter: Flags, properties: Flags, i: nat)
    requires IsLeastMatch(memoryTypes, typeFilter, properties, i)
    ensures i == LeastMatch(memoryTypes, typeFilter, properties)
  {
    assert Matches(memoryTypes, typeFilter, properties, i);
  }

  /** The least accepted index, or `NoMemoryType` when no memory type is
      accepted. `memoryTypes` holds the `propertyFlags` of the first
      `memoryTypeCount` entries of `VkPhysicalDeviceMemoryProperties`. */
  method FindMemoryType(memoryTypes: seq<Flags>, typeFilter: Flags, properties: Flags)
    returns (r: Result<nat>)
    requires |memoryTypes| <= 32
    ensures r.Ok? ==> IsLeastMatch(memoryTypes, typeFilter, properties, r.value)
    ensures r.Err? ==> r.error == NoMemoryType
    ensures r.Ok? <==> AnyMatches(memoryTypes, typeFilter, properties)
    ensures r.Ok? ==> r.value == LeastMatch(memoryTypes, typeFilter, properties)
  {
    var i := 0;
    while i < |memoryTypes|
      invariant i <= |memoryTypes|
      invariant forall j :: 0 <= j < i ==> !Matches(memoryTypes, typeFilter, properties, j)
    {
      var hasValidType := typeFilter & (1 << i) != 0;
      var hasValidProperties := memoryTypes[i] & properties == properties;
      if hasValidType && hasValidProperties {
        assert Matches(memoryTypes, typeFilter, properties, i);
        LeastMatchUnique(memoryTypes, typeFilter, properties, i);
        return Ok(i);
      }
      i := i + 1;
    }
    return Err(NoMemoryType);
  }
}
