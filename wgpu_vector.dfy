/** The wgpu-math `Vector`: 2, 3 or 4 float components stored in a
    Float32Array laid out for WGSL, where a 3-vector occupies 4 lanes. */
module WgpuVector {
  import opened Wrappers
  import opened JsNumber

  datatype VectorError =
    | InvalidSize      // n is not an integer in [2, 4]
    | SizeMismatch     // initial data, or the other vector, has another size
    | MissingComponent // z read or written on a 2-vector, w on a 2- or 3-vector

  predicate ValidSize(n: int) {
    2 <= n <= 4
  }

  /** Lanes a vector of n components occupies: a 3-vector is padded to 4. */
  function Lanes(n: int): (l: int)
    ensures n <= l && (n == 3 ==> l == 4) && (n != 3 ==> l == n)
  {
    if n == 3 then 4 else n
  }

  /** The lane storage the constructor builds from the optional initial data. */
  function LaneLayout(n: int, init: Option<seq<real>>): (s: seq<real>)
    requires ValidSize(n)
    requires init.Some? ==> |init.value| == n
    ensures |s| == Lanes(n)
    ensures init.Some? ==> s[..n] == init.value
    ensures init.None? ==> forall i :: 0 <= i < n ==> s[i] == 0.0
    ensures forall i :: n <= i < |s| ==> s[i] == 0.0
  {
    if n == 3 && init.Some? then init.value + [0.0]
    else if n == 3 then [0.0, 0.0, 0.0, 0.0]
    else if init.Some? then init.value
    else seq(n, _ => 0.0)
  }

  /** Sum of a[i] * b[i] over the first n lanes. */
  function DotPrefix(a: seq<real>, b: seq<real>, n: nat): real
    requires n <= |a| && n <= |b|
  {
    if n == 0 then 0.0 else DotPrefix(a, b, n - 1) + a[n - 1] * b[n - 1]
  }

  /** The dot product only reads the first n lanes: padding never contributes. */
  lemma {:induction false} DotPrefixOnlyReadsPrefix(a: seq<real>, b: seq<real>, a': seq<real>, b': seq<real>, n: nat)
    requires n <= |a| && n <= |b| && n <= |a'| && n <= |b'|
    requires a[..n] == a'[..n] && b[..n] == b'[..n]
    ensures DotPrefix(a, b, n) == DotPrefix(a', b', n)
  {
    if n > 0 {
      assert a[..n - 1] == a[..n][..n - 1] && a'[..n - 1] == a'[..n][..n - 1];
      assert b[..n - 1] == b[..n][..n - 1] && b'[..n - 1] == b'[..n][..n - 1];
      assert a[n - 1] == a[..n][n - 1] && b[n - 1] == b[..n][n - 1];
      DotPrefixOnlyReadsPrefix(a, b, a', b', n - 1);
    }
  }

  /** dot(a, b) == dot(b, a). */
  lemma {:induction false} DotPrefixSymmetric(a: seq<real>, b: seq<real>, n: nat)
    requires n <= |a| && n <= |b|
    ensures DotPrefix(a, b, n) == DotPrefix(b, a, n)
  {
    if n > 0 {
      DotPrefixSymmetric(a, b, n - 1);
    }
  }

  class Vector {
    var size: int
    var data: array<real>

    ghost predicate Valid()
      reads this
    {
      ValidSize(size) && data.Length == Lanes(size)
    }

    /** The lane layout for validated arguments: the part of the JavaScript
        constructor after its two checks. */
    constructor Init(n: int, init: Option<seq<real>>)
      requires ValidSize(n)
      requires init.Some? ==> |init.value| == n
      ensures Valid() && fresh(data)
      ensures size == n && data[..] == LaneLayout(n, init)
    {
      size := n;
      var lanes := LaneLayout(n, init);
      var storage := new real[|lanes|](i requires 0 <= i < |lanes| => lanes[i]);
      assert storage[..] == lanes;
      data := storage;
    }

    /** `new Vector(n, data)`: rejects a size outside [2, 4] or a non-integer
        size, then initial data whose length is not n. */
    static method New(n: real, init: Option<seq<real>>) returns (r: Result<Vector, VectorError>)
      ensures !IsInteger(n) || n < 2.0 || n > 4.0 <==> r == Failure(InvalidSize)
      ensures r == Failure(SizeMismatch) <==>
                IsInteger(n) && 2.0 <= n <= 4.0 && init.Some? && |init.value| as real != n
      ensures r.Success? ==> fresh(r.value) && fresh(r.value.data) && r.value.Valid()
      ensures r.Success? ==> r.value.size as real == n && r.value.data[..] == LaneLayout(r.value.size, init)
    {
      if !IsInteger(n) || n < 2.0 || n > 4.0 {
        return Failure(InvalidSize);
      }
      if init.Some? && |init.value| as real != n {
        return Failure(SizeMismatch);
      }
      var v := new Vector.Init(n.Floor, init);
      return Success(v);
    }

    function X(): (x: real)
      requires Valid()
      reads this, data
      ensures x == data[..][0]
    {
      data[0]
    }

    function Y(): (y: real)
      requires Valid()
      reads this, data
      ensures y == data[..][1]
    {
      data[1]
    }

    /** Reading z fails on a 2-vector. */
    function Z(): (z: Result<real, VectorError>)
      requires Valid()
      reads this, data
      ensures z.Success? <==> size >= 3
      ensures z.Success? ==> z.value == data[..][2]
      ensures z.Failure? ==> z.error == MissingComponent
    {
      if size < 3 then Failure(MissingComponent) else Success(data[2])
    }

    /** Reading w fails unless this is a 4-vector. */
    function W(): (w: Result<real, VectorError>)
      requires Valid()
      reads this, data
      ensures w.Success? <==> size == 4
      ensures w.Success? ==> w.value == data[..][3]
      ensures w.Failure? ==> w.error == MissingComponent
    {
      if size < 4 then Failure(MissingComponent) else Success(data[3])
    }

    method SetX(val: real)
      requires Valid()
      modifies data
      ensures Valid()
      ensures data[..] == old(data[..])[0 := val]
    {
      data[0] := val;
    }

    method SetY(val: real)
      requires Valid()
      modifies data
      ensures Valid()
      ensures data[..] == old(data[..])[1 := val]
    {
      data[1] := val;
    }

    /** Writing z fails on a 2-vector and then changes nothing. */
    method SetZ(val: real) returns (o: Outcome<VectorError>)
      requires Valid()
      modifies data
      ensures Valid()
      ensures o.Pass? <==> size >= 3
      ensures o.Fail? ==> o.error == MissingComponent
      ensures data[..] == if o.Pass? then old(data[..])[2 := val] else old(data[..])
    {
      if size < 3 {
        return Fail(MissingComponent);
      }
      data[2] := val;
      return Pass;
    }

    /** Writing w fails unless this is a 4-vector and then changes nothing. */
    method SetW(val: real) returns (o: Outcome<VectorError>)
      requires Valid()
      modifies data
      ensures Valid()
      ensures o.Pass? <==> size == 4
      ensures o.Fail? ==> o.error == MissingComponent
      ensures data[..] == if o.Pass? then old(data[..])[3 := val] else old(data[..])
    {
      if size < 4 {
        return Fail(MissingComponent);
      }
      data[3] := val;
      return Pass;
    }

    /** `Vector.dot(a, b)`: fails on vectors of different sizes, otherwise
        accumulates a[i] * b[i] over the logical (unpadded) size. */
    static method Dot(a: Vector, b: Vector) returns (r: Result<real, VectorError>)
      requires a.Valid() && b.Valid()
      ensures r.Failure? <==> a.size != b.size
      ensures r.Failure? ==> r.error == SizeMismatch
      ensures r.Success? ==> r.value == DotPrefix(a.data[..], b.data[..], a.size)
    {
      if a.size != b.size {
        return Failure(SizeMismatch);
      }
      var dotProduct := 0.0;
      for i := 0 to a.size
        invariant dotProduct == DotPrefix(a.data[..], b.data[..], i)
      {
        dotProduct := dotProduct + a.data[i] * b.data[i];
      }
      return Success(dotProduct);
    }
  }
}
