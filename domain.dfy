/** The OpenStreetMap entity model: the closed family of entity variants and
    the `Way` record with its construction, node accessor, structural
    equality and 32-bit hash code. */
module Domain {

  /** Java `long`. */
  type Int64 = x: int | -0x8000_0000_0000_0000 <= x < 0x8000_0000_0000_0000

  /** Java `int`. */
  type Int32 = x: int | -0x8000_0000 <= x < 0x8000_0000

  datatype Option<+T> = None | Some(value: T)

  /** Version, timestamp, changeset and author of an element; kept opaque. */
  type Info(==)

  /** A JTS geometry; a foreign library value, kept opaque. */
  type Geometry(==)

  /** The variants other than `Way` are referenced but not part of this model:
      their payloads are opaque. */
  type Header(==)
  type Bound(==)
  type Node(==)
  type Relation(==)

  /** The fields a `Way` inherits from `Element`. The plain constructor leaves
      the geometry unset (`None`). */
  datatype Element = Element(id: Int64, info: Info, tags: map<string, string>, geometry: Option<Geometry>)

  /** A way: the base element fields and its ordered list of node ids. */
  datatype Way = Way(element: Element, nodes: seq<Int64>)

  /** The closed family of entities delivered by a decode stream. */
  datatype Entity =
    | HeaderEntity(header: Header)
    | BoundEntity(bound: Bound)
    | NodeEntity(node: Node)
    | WayEntity(way: Way)
    | RelationEntity(relation: Relation)

  // ----------------------------------------------------------------------
  // Construction and access

  /** `new Way(id, info, tags, nodes)`. */
  function NewWay(id: Int64, info: Info, tags: map<string, string>, nodes: seq<Int64>): (w: Way)
    ensures GetNodes(w) == nodes
    ensures w.element.id == id && w.element.info == info && w.element.tags == tags
    ensures w.element.geometry == None
  {
    Way(Element(id, info, tags, None), nodes)
  }

  /** `new Way(id, info, tags, nodes, geometry)`. */
  function NewWayWithGeometry(id: Int64, info: Info, tags: map<string, string>, nodes: seq<Int64>, geometry: Geometry): (w: Way)
    ensures GetNodes(w) == nodes
    ensures w.element.id == id && w.element.info == info && w.element.tags == tags
    ensures w.element.geometry == Some(geometry)
  {
    Way(Element(id, info, tags, Some(geometry)), nodes)
  }

  /** `getNodes()`. */
  function GetNodes(w: Way): seq<Int64>
  {
    w.nodes
  }

  /** The geometry-carrying constructor stores the same node list as the plain
      one and the same base fields, except for the geometry. */
  lemma ConstructorsAgree(id: Int64, info: Info, tags: map<string, string>, nodes: seq<Int64>, geometry: Geometry)
    ensures GetNodes(NewWayWithGeometry(id, info, tags, nodes, geometry)) == GetNodes(NewWay(id, info, tags, nodes))
    ensures NewWayWithGeometry(id, info, tags, nodes, geometry).element.(geometry := None)
         == NewWay(id, info, tags, nodes).element
    ensures NewWayWithGeometry(id, info, tags, nodes, geometry) != NewWay(id, info, tags, nodes)
  {
  }

  // ----------------------------------------------------------------------
  // Equality

  /** `List.equals` on two lists of `Long`: same length and equal elements,
      compared front to back. */
  function NodeListsEqual(a: seq<Int64>, b: seq<Int64>): (r: bool)
    ensures r ==> |a| == |b|
    ensures r ==> forall i :: 0 <= i < |a| ==> a[i] == b[i]
  {
    if a == [] || b == [] then a == [] && b == []
    else a[0] == b[0] && NodeListsEqual(a[1..], b[1..])
  }

  /** `Element.equals` is not part of this model; it is taken to be equality
      of all base fields. */
  predicate ElementEquals(a: Element, b: Element)
  {
    a == b
  }

  /** `Way.equals(o)` for an entity `o`. */
  predicate WayEquals(w: Way, o: Entity)
    ensures WayEquals(w, o) ==> o.WayEntity? && o.way.element == w.element
  {
    if !o.WayEntity? then false
    else if !ElementEquals(w.element, o.way.element) then false
    else NodeListsEqual(w.nodes, o.way.nodes)
  }

  /** Two node lists are equal exactly when they have the same length and agree
      at every index, so order matters. */
  lemma {:induction false} NodeListsEqualIff(a: seq<Int64>, b: seq<Int64>)
    ensures NodeListsEqual(a, b) <==> (|a| == |b| && forall i :: 0 <= i < |a| ==> a[i] == b[i])
    ensures NodeListsEqual(a, b) <==> a == b
  {
    if a != [] && b != [] {
      NodeListsEqualIff(a[1..], b[1..]);
      if |a| == |b| && forall i :: 0 <= i < |a| ==> a[i] == b[i] {
        assert forall i :: 0 <= i < |a[1..]| ==> a[1..][i] == b[1..][i] by {
          forall i | 0 <= i < |a[1..]| ensures a[1..][i] == b[1..][i] {
            assert a[1..][i] == a[i + 1];
          }
        }
      }
      if NodeListsEqual(a, b) {
        assert a == [a[0]] + a[1..];
        assert b == [b[0]] + b[1..];
      }
    }
  }

  /** A way always equals itself (the `this == o` shortcut agrees with the
      structural comparison). */
  lemma WayEqualsReflexive(w: Way)
    ensures WayEquals(w, WayEntity(w))
  {
    NodeListsEqualIff(w.nodes, w.nodes);
  }

  /** A way never equals an entity of another variant. */
  lemma WayNeverEqualsOtherVariant(w: Way, o: Entity)
    requires !o.WayEntity?
    ensures !WayEquals(w, o)
  {
  }

  /** `Way.equals` is exactly datatype equality: equal base fields and equal
      node lists, element by element in order. */
  lemma WayEqualsIff(w: Way, v: Way)
    ensures WayEquals(w, WayEntity(v)) <==>
      (w.element == v.element && |w.nodes| == |v.nodes|
       && forall i :: 0 <= i < |w.nodes| ==> w.nodes[i] == v.nodes[i])
    ensures WayEquals(w, WayEntity(v)) <==> w == v
  {
    NodeListsEqualIff(w.nodes, v.nodes);
  }

  /** `Way.equals` is symmetric between two ways. */
  lemma WayEqualsSymmetric(w: Way, v: Way)
    ensures WayEquals(w, WayEntity(v)) == WayEquals(v, WayEntity(w))
  {
    WayEqualsIff(w, v);
    WayEqualsIff(v, w);
  }

  // ----------------------------------------------------------------------
  // Hash code

  /** Java's narrowing of an integer result to `int` (two's complement). */
  function Wrap32(x: int): (r: Int32)
    ensures (r - x) % 0x1_0000_0000 == 0
  {
    var m := x % 0x1_0000_0000;
    if m < 0x8000_0000 then m else m - 0x1_0000_0000
  }

  /** Bitwise exclusive or of the low `n` bits of two non-negative integers. */
  function Xor(a: nat, b: nat, n: nat): (r: nat)
    ensures r < Pow2(n)
  {
    if n == 0 then 0
    else (a % 2 + b % 2) % 2 + 2 * Xor(a / 2, b / 2, n - 1)
  }

  function Pow2(n: nat): (r: nat)
    ensures r >= 1
  {
    if n == 0 then 1 else 2 * Pow2(n - 1)
  }

  /** `Long.hashCode(v)`: `(int) (v ^ (v >>> 32))`, that is the exclusive or
      of the low and the high 32-bit halves of `v`, read as a signed `int`. */
  function LongHash(v: Int64): Int32
  {
    var u := if v < 0 then v + 0x1_0000_0000_0000_0000 else v;
    Wrap32(Xor(u % 0x1_0000_0000, u / 0x1_0000_0000, 32))
  }

  /** `List.hashCode()` continued from the running hash `h`: for each element
      in order, `h = 31 * h + e.hashCode()`. */
  function NodeListHashFrom(h: Int32, nodes: seq<Int64>): Int32
    decreases |nodes|
  {
    if nodes == [] then h
    else NodeListHashFrom(Wrap32(31 * h + LongHash(nodes[0])), nodes[1..])
  }

  /** `List.hashCode()` of a list of `Long`, starting from 1. */
  function NodeListHash(nodes: seq<Int64>): Int32
  {
    NodeListHashFrom(1, nodes)
  }

  /** `Way.hashCode()`: `Objects.hash(super.hashCode(), nodes)`, which is
      `31 * (31 * 1 + a) + b` in 32-bit arithmetic. `Element.hashCode` is not
      part of this model and is passed in as `elementHash`. */
  function WayHash(w: Way, elementHash: Element -> Int32): Int32
  {
    Wrap32(31 * Wrap32(31 + elementHash(w.element)) + NodeListHash(w.nodes))
  }

  /** The `List.hashCode` fold over a concatenation continues the fold over
      the first part with the second part. */
  lemma {:induction false} NodeListHashFromAppend(h: Int32, a: seq<Int64>, b: seq<Int64>)
    ensures NodeListHashFrom(h, a + b) == NodeListHashFrom(NodeListHashFrom(h, a), b)
    decreases |a|
  {
    if a == [] {
      assert a + b == b;
    } else {
      assert (a + b)[0] == a[0] && (a + b)[1..] == a[1..] + b;
      NodeListHashFromAppend(Wrap32(31 * h + LongHash(a[0])), a[1..], b);
    }
  }

  /** Appending one node id to a list updates its hash by one step of the
      fold: `31 * h + Long.hashCode(id)`, narrowed to `int`. */
  lemma NodeListHashSnoc(nodes: seq<Int64>, id: Int64)
    ensures NodeListHash(nodes + [id]) == Wrap32(31 * NodeListHash(nodes) + LongHash(id))
  {
    NodeListHashFromAppend(1, nodes, [id]);
    assert [id][1..] == [];
  }

  /** An id whose high 32 bits are zero hashes to its low 32 bits read as a
      signed `int`. */
  lemma LongHashLowHalfOnly(v: Int64)
    requires 0 <= v < 0x1_0000_0000
    ensures LongHash(v) == Wrap32(v)
  {
    assert v % 0x1_0000_0000 == v;
    assert v / 0x1_0000_0000 == 0;
    Pow2Of32();
    XorZero(v, 32);
  }

  /** A non-negative id below 2^31 hashes to itself. */
  lemma LongHashSmall(v: Int64)
    requires 0 <= v < 0x8000_0000
    ensures LongHash(v) == v
  {
    assert v % 0x1_0000_0000 == v;
    assert v / 0x1_0000_0000 == 0;
    Pow2Of32();
    XorZero(v, 32);
    assert Xor(v % 0x1_0000_0000, v / 0x1_0000_0000, 32) == v;
    assert Wrap32(v) == v;
  }

  /** Exclusive or with zero leaves the low `n` bits unchanged. */
  lemma {:induction false} XorZero(a: nat, n: nat)
    requires a < Pow2(n)
    ensures Xor(a, 0, n) == a
  {
    if n > 0 {
      XorZero(a / 2, n - 1);
    }
  }

  lemma {:induction false} Pow2Add(a: nat, b: nat)
    ensures Pow2(a + b) == Pow2(a) * Pow2(b)
  {
    if a > 0 {
      Pow2Add(a - 1, b);
    }
  }

  lemma Pow2Of32()
    ensures Pow2(32) == 0x1_0000_0000
  {
    assert Pow2(2) == 4;
    Pow2Add(2, 2);
    Pow2Add(4, 4);
    Pow2Add(8, 8);
    Pow2Add(16, 16);
  }

  /** Exclusive or of a value with itself is zero. */
  lemma {:induction false} XorSelf(a: nat, n: nat)
    ensures Xor(a, a, n) == 0
  {
    if n > 0 {
      XorSelf(a / 2, n - 1);
    }
  }

  /** Exclusive or is commutative. */
  lemma {:induction false} XorComm(a: nat, b: nat, n: nat)
    ensures Xor(a, b, n) == Xor(b, a, n)
  {
    if n > 0 {
      XorComm(a / 2, b / 2, n - 1);
    }
  }

  /** A negative id goes through its two's-complement bits: -1 has equal
      halves, so its hash is 0. */
  lemma LongHashMinusOne()
    ensures LongHash(-1) == 0
  {
    var u := -1 + 0x1_0000_0000_0000_0000;
    assert u % 0x1_0000_0000 == 0xFFFF_FFFF && u / 0x1_0000_0000 == 0xFFFF_FFFF;
    XorSelf(0xFFFF_FFFF, 32);
  }

  /** The high half takes part: 2^32 has halves 0 and 1, so its hash is 1. */
  lemma LongHashHighHalf()
    ensures LongHash(0x1_0000_0000) == 1
  {
    var u := 0x1_0000_0000;
    assert u % 0x1_0000_0000 == 0 && u / 0x1_0000_0000 == 1;
    Pow2Of32();
    XorComm(0, 1, 32);
    XorZero(1, 32);
  }

  /** `Objects.hash(5, [1, 2])` for a way whose element hashes to 5:
      31 * (31 + 5) + 994. */
  lemma WayHashExample(e: Element)
    ensures WayHash(Way(e, [1, 2]), x => 5) == 2110
  {
    NodeOrderMatters(e);
    assert Wrap32(31 + 5) == 36 && Wrap32(31 * 36 + 994) == 2110;
  }

  /** Ways that are equal by `Way.equals` have equal hash codes, whatever the
      (deterministic) element hash is. */
  lemma EqualWaysHaveEqualHashes(w: Way, v: Way, elementHash: Element -> Int32)
    requires WayEquals(w, WayEntity(v))
    ensures WayHash(w, elementHash) == WayHash(v, elementHash)
  {
    WayEqualsIff(w, v);
  }

  /** The hash depends on the base fields only through the element hash and
      on nothing but the node list otherwise. */
  lemma WayHashDependsOnlyOnFields(w: Way, v: Way, elementHash: Element -> Int32)
    requires elementHash(w.element) == elementHash(v.element)
    requires NodeListsEqual(w.nodes, v.nodes)
    ensures WayHash(w, elementHash) == WayHash(v, elementHash)
  {
    NodeListsEqualIff(w.nodes, v.nodes);
  }

  /** Node order matters: the ways with nodes [1, 2] and [2, 1] are not equal
      and their node lists hash differently (994 against 1024). */
  lemma NodeOrderMatters(e: Element)
    ensures !WayEquals(Way(e, [1, 2]), WayEntity(Way(e, [2, 1])))
    ensures NodeListHash([1, 2]) == 994 && NodeListHash([2, 1]) == 1024
  {
    LongHashSmall(1);
    LongHashSmall(2);
    assert [1, 2][1..] == [2] && [2][1..] == [];
    assert [2, 1][1..] == [1] && [1][1..] == [];
    assert Wrap32(31 * 1 + 1) == 32 && Wrap32(31 * 32 + 2) == 994;
    assert Wrap32(31 * 1 + 2) == 33 && Wrap32(31 * 33 + 1) == 1024;
    assert NodeListHashFrom(1, [1, 2]) == NodeListHashFrom(32, [2]);
    assert NodeListHashFrom(32, [2]) == NodeListHashFrom(994, []);
    assert NodeListHashFrom(1, [2, 1]) == NodeListHashFrom(33, [1]);
    assert NodeListHashFrom(33, [1]) == NodeListHashFrom(1024, []);
  }
}
