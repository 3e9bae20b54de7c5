/** The counter with its 64-bit wrapping arithmetic and its byte encoding. */
module CounterArithmetic {
  import opened Types

  /** The machine integer congruent to `x`: what release-mode addition leaves. */
  function Wrap(x: int): (r: i64)
    ensures -TWO_63 <= x < TWO_63 ==> r == x
  {
    (x + TWO_63) % TWO_64 - TWO_63
  }

  lemma WrapOf(x: int, r: i64, q: int)
    requires x == r + TWO_64 * q
    ensures Wrap(x) == r
  {
    assert x + TWO_63 == (r + TWO_63) + TWO_64 * q;
  }

  lemma WrapSplit(x: int) returns (q: int)
    ensures x == Wrap(x) + TWO_64 * q
  {
    q := (x + TWO_63) / TWO_64;
  }

  /** Two integers wrap to the same value exactly when they are congruent. */
  lemma WrapCongruence(x: int, y: int)
    ensures Wrap(x) == Wrap(y) <==> (x - y) % TWO_64 == 0
  {
    var p := WrapSplit(x);
    var q := WrapSplit(y);
    if (x - y) % TWO_64 == 0 {
      var t := (x - y) / TWO_64;
      WrapOf(x, Wrap(y), q + t);
    }
    if Wrap(x) == Wrap(y) {
      assert x - y == TWO_64 * (p - q);
    }
  }

  /** Wrapping early or late gives the same sum. */
  lemma WrapAdd(x: int, y: int)
    ensures Wrap(Wrap(x) + y) == Wrap(x + y)
  {
    var q := WrapSplit(x);
    var t := WrapSplit(x + y);
    WrapOf(Wrap(x) + y, Wrap(x + y), t - q);
  }

  /** Adding the wrapped negation undoes an addition, the least integer included. */
  lemma WrapInverse(v: int, d: int)
    ensures Wrap(v + Wrap(-d)) == Wrap(v - d)
  {
    WrapAdd(-d, v);
  }

  function ToUnsigned(v: i64): nat { if v < 0 then v + TWO_64 else v }

  function LittleEndian(n: nat, count: nat): (bytes: seq<byte>)
    ensures |bytes| == count
  {
    if count == 0 then [] else [n % 256] + LittleEndian(n / 256, count - 1)
  }

  function FromLittleEndian(bytes: seq<byte>): nat {
    if bytes == [] then 0 else bytes[0] + 256 * FromLittleEndian(bytes[1..])
  }

  function Pow256(count: nat): nat {
    if count == 0 then 1 else 256 * Pow256(count - 1)
  }

  lemma {:induction false} LittleEndianRoundTrip(n: nat, count: nat)
    requires n < Pow256(count)
    ensures FromLittleEndian(LittleEndian(n, count)) == n
  {
    if count == 0 {
    } else {
      LittleEndianRoundTrip(n / 256, count - 1);
      assert LittleEndian(n, count)[1..] == LittleEndian(n / 256, count - 1);
    }
  }

  lemma {:induction false} FromLittleEndianBound(bytes: seq<byte>)
    ensures FromLittleEndian(bytes) < Pow256(|bytes|)
    ensures LittleEndian(FromLittleEndian(bytes), |bytes|) == bytes
  {
    if bytes == [] {
    } else {
      FromLittleEndianBound(bytes[1..]);
      assert bytes == [bytes[0]] + bytes[1..];
    }
  }

  function ToBytes(v: i64): (bytes: seq<byte>)
    ensures |bytes| == 8
  {
    LittleEndian(ToUnsigned(v), 8)
  }

  function FromBytes(bytes: seq<byte>): i64
    requires |bytes| == 8
  {
    Wrap(FromLittleEndian(bytes))
  }

  lemma Pow256Eight()
    ensures Pow256(8) == TWO_64
  {
    assert Pow256(4) == 0x1_0000_0000;
  }

  /** Serialising a counter and reading it back gives the counter, and the other way round. */
  lemma BytesRoundTrip(v: i64)
    ensures FromBytes(ToBytes(v)) == v
  {
    Pow256Eight();
    LittleEndianRoundTrip(ToUnsigned(v), 8);
  }

  lemma ValueRoundTrip(bytes: seq<byte>)
    requires |bytes| == 8
    ensures ToBytes(FromBytes(bytes)) == bytes
  {
    Pow256Eight();
    FromLittleEndianBound(bytes);
    assert ToUnsigned(FromBytes(bytes)) == FromLittleEndian(bytes);
  }

  /** The bytes are in little-endian order: the lowest comes first. */
  lemma LowByteFirst(v: i64)
    ensures ToBytes(v)[0] == v % 256
  {
    assert LittleEndian(ToUnsigned(v), 8) == [ToUnsigned(v) % 256] + LittleEndian(ToUnsigned(v) / 256, 7);
  }

  lemma DeltaSnoc(ops: seq<Operation>, op: Operation)
    ensures OperationsDelta(ops + [op]) == OperationsDelta(ops) + op.Delta()
  {
    assert (ops + [op])[..|ops|] == ops;
  }

  class CounterCrdt {
    var value: i64

    constructor ()
      ensures value == 0
    {
      value := 0;
    }

    method IncreaseBy(delta: i64) returns (r: i64)
      modifies this
      ensures r == value == Wrap(old(value) + delta)
    {
      value := Wrap(value + delta);
      r := value;
    }

    /** Local and remote execution alike. */
    method ExecuteCommonOperation(op: Operation) returns (r: i64)
      requires op.body.CounterIncrease?
      modifies this
      ensures r == value == Wrap(old(value) + op.Delta())
    {
      r := IncreaseBy(op.body.delta);
    }

    method ExecuteInverseOperation(op: Operation) returns (r: i64)
      requires op.body.CounterIncrease?
      modifies this
      ensures r == value == Wrap(old(value) - op.Delta())
    {
      WrapInverse(value, op.Delta());
      r := IncreaseBy(Wrap(-op.Delta()));
    }

    method Serialize() returns (bytes: seq<byte>)
      ensures |bytes| == 8 && FromBytes(bytes) == value
    {
      BytesRoundTrip(value);
      bytes := ToBytes(value);
    }

    /** Input of the wrong length is refused and changes nothing. */
    method Deserialize(bytes: seq<byte>) returns (ok: bool)
      modifies this
      ensures ok == (|bytes| == 8)
      ensures value == if ok then FromBytes(bytes) else old(value)
    {
      if |bytes| != 8 {
        return false;
      }
      value := FromBytes(bytes);
      ok := true;
    }
  }
}
