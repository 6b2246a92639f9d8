/** Queue-family lookups of lib/fractal/renderer/FTL_Renderer.cpp: the first
    graphics-capable family (getQueueFamilyIndex, and the same find_if in
    pickPhysicalDevice and createLogicalDevice), and the resolution of the
    graphics and present family indices in createLogicalDevice, fallback
    scan included, exactly as the code runs it. */
module QueueFamilies {
  import opened Vk

  /** `queueFlags & vk::QueueFlagBits::eGraphics` is non-zero */
  predicate SupportsGraphics(f: QueueFamily) {
    f.queueFlags & QueueGraphicsBit != 0
  }

  /** The index of the first graphics-capable family, or the family count
      when there is none. */
  function GetQueueFamilyIndex(families: seq<QueueFamily>): (k: nat)
    ensures k <= |families|
    ensures k < |families| ==> SupportsGraphics(families[k])
    ensures forall j :: 0 <= j < k ==> !SupportsGraphics(families[j])
    ensures k == |families| <==> forall f :: f in families ==> !SupportsGraphics(f)
  {
    if |families| == 0 then 0
    else if SupportsGraphics(families[0]) then 0
    else 1 + GetQueueFamilyIndex(families[1..])
  }

  predicate HasGraphicsFamily(families: seq<QueueFamily>) {
    GetQueueFamilyIndex(families) < |families|
  }

  datatype QueuePair = QueuePair(graphics: nat, present: nat)

  /** What createLogicalDevice ends up with, where g is the first graphics
      family: (g, g) when g can present; otherwise the fallback scan stops at
      family 0 whatever it offers, giving (0, 0) when family 0 can present
      and (g, 0) when it cannot. */
  function ResolvedQueues(families: seq<QueueFamily>, presentSupport: seq<bool>): (r: QueuePair)
    requires |presentSupport| == |families| && HasGraphicsFamily(families)
    ensures r.graphics < |families| && r.present < |families|
    ensures presentSupport[GetQueueFamilyIndex(families)] ==>
              r.graphics == r.present == GetQueueFamilyIndex(families)
    ensures !presentSupport[GetQueueFamilyIndex(families)] ==>
              r.present == 0 && r.graphics == (if presentSupport[0] then 0 else GetQueueFamilyIndex(families))
  {
    var g := GetQueueFamilyIndex(families);
    if presentSupport[g] then QueuePair(g, g)
    else if presentSupport[0] then QueuePair(0, 0)
    else QueuePair(g, 0)
  }

  /** The index resolution of createLogicalDevice. `presentSupport[i]` is the
      driver's answer to `getSurfaceSupportKHR(i, surface)`. In the fallback
      loop the graphics test is overwritten by the presentation answer and
      `hasPresentSupport` stays true, so the loop leaves at i = 0 and the
      error after it is never raised. */
  method ResolveQueueFamilies(families: seq<QueueFamily>, presentSupport: seq<bool>)
    returns (r: Result<QueuePair>)
    requires |presentSupport| == |families|
    requires HasGraphicsFamily(families)  // the assert on the find_if result
    ensures r == Ok(ResolvedQueues(families, presentSupport))
  {
    var n := |families|;
    var graphicsIndex := GetQueueFamilyIndex(families);
    var presentIndex := if presentSupport[graphicsIndex] then graphicsIndex else n;

    if presentIndex == n {
      var hasGraphicsSupport := true;
      var hasPresentSupport := true;
      for i := 0 to n
        invariant i == 0
        invariant graphicsIndex == GetQueueFamilyIndex(families) && presentIndex == n
      {
        hasGraphicsSupport := SupportsGraphics(families[i]);
        hasGraphicsSupport := presentSupport[i];

        if hasGraphicsSupport && hasPresentSupport {
          graphicsIndex := i;
          presentIndex := graphicsIndex;
          break;
        } else if !hasGraphicsSupport && hasPresentSupport {
          presentIndex := i;
          break;
        }
      }

      if graphicsIndex == n || presentIndex == n {
        return Err(NoQueueFamily);
      }
    }
    return Ok(QueuePair(graphicsIndex, presentIndex));
  }

  /** Each resolved index names a family with the capability it is used for
      (graphics for the first, presentation for the second). */
  predicate Capable(families: seq<QueueFamily>, presentSupport: seq<bool>, q: QueuePair)
    requires |presentSupport| == |families|
  {
    && q.graphics < |families| && SupportsGraphics(families[q.graphics])
    && q.present < |families| && presentSupport[q.present]
  }

  /** The resolved pair is capable exactly when the first graphics family
      can present: every fallback result names a graphics index without
      graphics support or a present index without presentation support. */
  lemma ResolvedCapableIff(families: seq<QueueFamily>, presentSupport: seq<bool>)
    requires |presentSupport| == |families| && HasGraphicsFamily(families)
    ensures Capable(families, presentSupport, ResolvedQueues(families, presentSupport))
            <==> presentSupport[GetQueueFamilyIndex(families)]
  {
    var g := GetQueueFamilyIndex(families);
    if !presentSupport[g] && presentSupport[0] {
      assert 0 < g;
      assert !SupportsGraphics(families[0]);
    }
  }

  /** The resolved graphics family, on which the renderer also presents,
      can present exactly when the first graphics family or family 0 can. */
  lemma ResolvedGraphicsPresentsIff(families: seq<QueueFamily>, presentSupport: seq<bool>)
    requires |presentSupport| == |families| && HasGraphicsFamily(families)
    ensures ResolvedQueues(families, presentSupport).graphics < |presentSupport|
    ensures presentSupport[ResolvedQueues(families, presentSupport).graphics]
            <==> presentSupport[GetQueueFamilyIndex(families)] || presentSupport[0]
  {
  }

  /** A family offering both graphics and presentation does not guarantee a
      shared queue: with families [compute only, graphics only, graphics and
      present] and no presentation on family 0, the result is (1, 0), two
      different families, the second of which cannot present. */
  lemma CombinedFamilyNotPreferred()
    ensures var families := [QueueFamily(0x2), QueueFamily(0x1), QueueFamily(0x3)];
            var support := [false, false, true];
            && SupportsGraphics(families[2]) && support[2]
            && ResolvedQueues(families, support) == QueuePair(1, 0)
  {
    var families := [QueueFamily(0x2), QueueFamily(0x1), QueueFamily(0x3)];
    assert !SupportsGraphics(families[0]) && SupportsGraphics(families[1]);
    assert GetQueueFamilyIndex(families) == 1;
  }
}
