/** The vertex input layout of lib/fractal/renderer/FTL_Vertex.h: one binding
    holding interleaved vertices of a 2-float position followed by a 3-float
    colour. The struct's byte layout is derived from its member list with
    4-byte floats (glm's `vec2` and `vec3`, 4-byte aligned, so no padding);
    `sizeof` and `offsetof` are computed from that layout. */
module VertexLayout {
  import opened Vk

  const FloatSize: nat := 4

  /** A struct member made of `components` consecutive floats */
  datatype Member = Member(name: string, components: nat)

  /** `glm::vec2 position; glm::vec3 color;`, in declaration order */
  const VertexMembers: seq<Member> := [Member("position", 2), Member("color", 3)]

  function MemberSize(m: Member): nat { m.components * FloatSize }

  /** `offsetof` the k-th member: the sizes of the members declared before it */
  function OffsetOf(members: seq<Member>, k: nat): nat
    requires k <= |members|
  {
    if k == 0 then 0 else OffsetOf(members, k - 1) + MemberSize(members[k - 1])
  }

  /** `sizeof(Vertex)` */
  function SizeOf(members: seq<Member>): nat { OffsetOf(members, |members|) }

  datatype InputRate = PerVertex | PerInstance

  /** `vk::VertexInputBindingDescription` */
  datatype BindingDescription = BindingDescription(binding: nat, stride: nat, inputRate: InputRate)

  /** `vk::VertexInputAttributeDescription` */
  datatype AttributeDescription = AttributeDescription(location: nat, binding: nat, format: Format, offset: nat)

  /** Bytes read by an attribute of the given format */
  function FormatSize(f: Format): nat {
    if f == FormatR32G32Sfloat then 2 * FloatSize
    else if f == FormatR32G32B32Sfloat then 3 * FloatSize
    else 0
  }

  /** Vertex::getBindingDescription: binding 0, one whole vertex per step,
      advanced per vertex. */
  function GetBindingDescription(): (b: BindingDescription)
    ensures b.binding == 0 && b.inputRate == PerVertex
    ensures b.stride == SizeOf(VertexMembers) == 20
  {
    BindingDescription(0, SizeOf(VertexMembers), PerVertex)
  }

  /** Vertex::getAttributeDescriptions: location i reads member i of the
      vertex, from binding 0, in a format exactly as wide as the member. */
  function GetAttributeDescriptions(): (attrs: seq<AttributeDescription>)
    ensures |attrs| == |VertexMembers| == 2
    ensures forall i :: 0 <= i < |attrs| ==>
              && attrs[i].location == i
              && attrs[i].binding == GetBindingDescription().binding
              && attrs[i].offset == OffsetOf(VertexMembers, i)
              && FormatSize(attrs[i].format) == MemberSize(VertexMembers[i])
    ensures attrs[0].format == FormatR32G32Sfloat && attrs[1].format == FormatR32G32B32Sfloat
  {
    [ AttributeDescription(0, 0, FormatR32G32Sfloat, OffsetOf(VertexMembers, 0)),
      AttributeDescription(1, 0, FormatR32G32B32Sfloat, OffsetOf(VertexMembers, 1)) ]
  }

  /** Byte range [offset, offset + size) an attribute reads within a vertex */
  function End(a: AttributeDescription): nat { a.offset + FormatSize(a.format) }

  /** Members laid out one after another never overlap: an earlier member
      ends no later than a later one starts. */
  lemma {:induction false} OffsetsIncrease(members: seq<Member>, i: nat, j: nat)
    requires i <= j <= |members|
    ensures OffsetOf(members, i) <= OffsetOf(members, j)
    decreases j - i
  {
    if i < j {
      OffsetsIncrease(members, i, j - 1);
    }
  }

  /** The attributes read disjoint byte ranges, in location order, and all of
      them lie inside one stride of the binding. */
  lemma AttributesDisjointWithinStride()
    ensures forall i, j :: 0 <= i < j < |GetAttributeDescriptions()| ==>
              End(GetAttributeDescriptions()[i]) <= GetAttributeDescriptions()[j].offset
    ensures forall i :: 0 <= i < |GetAttributeDescriptions()| ==>
              End(GetAttributeDescriptions()[i]) <= GetBindingDescription().stride
  {
    var attrs := GetAttributeDescriptions();
    forall i, j | 0 <= i < j < |attrs|
      ensures End(attrs[i]) <= attrs[j].offset
    {
      OffsetsIncrease(VertexMembers, i + 1, j);
    }
    forall i | 0 <= i < |attrs|
      ensures End(attrs[i]) <= GetBindingDescription().stride
    {
      OffsetsIncrease(VertexMembers, i + 1, |VertexMembers|);
    }
  }
}
