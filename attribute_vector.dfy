/** The attribute `Vector` of the data model: an x component followed by up
    to three optional ones (y, z, h), packed without gaps into `value`. */
module AttributeVector {
  import opened Wrappers

  /** The one-element list of a defined component, the empty list otherwise. */
  function Present(c: Option<real>): (s: seq<real>)
    ensures |s| == if c.Some? then 1 else 0
    ensures c.Some? ==> s[0] == c.value
  {
    if c.Some? then [c.value] else []
  }

  /** How many of y, z and h are defined. */
  function DefinedCount(y: Option<real>, z: Option<real>, h: Option<real>): (n: nat)
    ensures n <= 3
  {
    (if y.Some? then 1 else 0) + (if z.Some? then 1 else 0) + (if h.Some? then 1 else 0)
  }

  /** Reference definition of the packed components: x, then every defined
      one of y, z, h in that order. */
  function Components(x: real, y: Option<real>, z: Option<real>, h: Option<real>): seq<real> {
    [x] + Present(y) + Present(z) + Present(h)
  }

  /** The packed list holds x first, one more entry per defined component,
      and between one and four entries. */
  lemma ComponentsShape(x: real, y: Option<real>, z: Option<real>, h: Option<real>)
    ensures var v := Components(x, y, z, h);
      && |v| == 1 + DefinedCount(y, z, h)
      && 1 <= |v| <= 4
      && v[0] == x
      && (y.Some? ==> v[1] == y.value)
  {
  }

  /** An undefined component leaves no gap: the later ones move forward. */
  lemma NoGaps(x: real, z: real)
    ensures Components(x, None, Some(z), None) == [x, z]
    ensures Components(x, None, None, Some(z)) == [x, z]
    ensures Components(x, None, None, None) == [x]
  {
  }

  class Vector {
    var x: real
    var y: Option<real>
    var z: Option<real>
    var h: Option<real>
    var size: int
    var value: seq<real>

    ghost predicate Valid()
      reads this
    {
      value == Components(x, y, z, h) && size == |value|
    }

    /** `new Vector(x, y, z, h)`: counts and appends each defined component
        in turn. */
    constructor (x: real, y: Option<real>, z: Option<real>, h: Option<real>)
      ensures Valid()
      ensures this.x == x && this.y == y && this.z == z && this.h == h
      ensures size == 1 + DefinedCount(y, z, h)
      ensures value == Components(x, y, z, h)
    {
      var values := [x];
      var n := 1;
      this.x := x;
      this.y, this.z, this.h := None, None, None;
      if y.Some? {
        n := n + 1;
        this.y := y;
        values := values + [y.value];
      }
      if z.Some? {
        n := n + 1;
        this.z := z;
        values := values + [z.value];
      }
      if h.Some? {
        n := n + 1;
        this.h := h;
        values := values + [h.value];
      }
      size := n;
      value := values;
    }
  }
}
