/**
 * The `Array.from` polyfill (sources/polyfills/array.from.ts), after section
 * 22.1.2.1 of ECMA-262 6th edition, array-like path only, with the helpers
 * ToInteger (section 7.1.4) and ToLength (section 7.1.15).
 *
 * Numbers are modelled as NaN, a signed infinity, or a finite real; negative
 * zero is not distinguished from zero. JavaScript values are untyped, so the
 * element type `T` stands for any value and the mapping function returns one.
 */
module ArrayFrom {
  import opened Wrappers

  datatype Number = NaN | Infinity(negative: bool) | Finite(value: real)

  /** What ToInteger yields: an integer, or an infinity passed through. */
  datatype IntegerOrInfinity = Int(i: int) | Inf(negative: bool)

  /** 2^53 - 1. */
  const MaxSafeInteger: int := 0x1F_FFFF_FFFF_FFFF

  /** The value handed to `Array.from`; `length` and the elements are read off `Object(arrayLike)`. */
  datatype ArrayLike<T> = Null | Undefined | Object(length: Number, at: nat -> T)

  /** The optional second argument; `NotCallable` is any supplied value that is not a function. */
  datatype MapFn<!T> = Absent | NotCallable | Callable(f: (T, nat) -> T)

  /** 2^32 - 1, the largest length `new Array(len)` accepts. */
  const MaxArrayLength: int := 0xFFFF_FFFF

  /**
   * What `arrayFrom` throws: a TypeError for a `null`/`undefined` argument or a
   * supplied mapping function that is not callable, and the RangeError of
   * `new Array(len)` when `len` is not a valid array length.
   */
  datatype ArrayFromError = NullOrUndefined | MapFnNotCallable | InvalidArrayLength

  function Abs(x: real): real {
    if x < 0.0 then -x else x
  }

  /** ToInteger: NaN becomes 0, zero and the infinities pass through, other numbers truncate toward zero. */
  function ToInteger(n: Number): (r: IntegerOrInfinity)
    ensures n.NaN? ==> r == Int(0)
    ensures n.Infinity? ==> r == Inf(n.negative)
    ensures n.Finite? ==> r.Int?
    ensures n.Finite? ==> Abs(r.i as real) <= Abs(n.value) < Abs(r.i as real) + 1.0
    ensures n.Finite? ==> (r.i > 0 ==> n.value > 0.0) && (r.i < 0 ==> n.value < 0.0)
  {
    match n
    case NaN => Int(0)
    case Infinity(negative) => Inf(negative)
    case Finite(x) =>
      if x == 0.0 then Int(0)
      else Int((if x > 0.0 then 1 else -1) * Abs(x).Floor)
  }

  /** ToLength: ToInteger clamped into [0, 2^53 - 1]. */
  function ToLength(n: Number): (len: nat)
    ensures len <= MaxSafeInteger
    ensures n.Finite? && n.value <= 0.0 ==> len == 0
    ensures n.Finite? && n.value >= MaxSafeInteger as real ==> len == MaxSafeInteger
    ensures n.Finite? && 0.0 <= n.value <= MaxSafeInteger as real ==> len == n.value.Floor
    ensures n.NaN? || n == Infinity(true) ==> len == 0
    ensures n == Infinity(false) ==> len == MaxSafeInteger
  {
    match ToInteger(n)
    case Inf(negative) => if negative then 0 else MaxSafeInteger
    case Int(i) => if i < 0 then 0 else if i > MaxSafeInteger then MaxSafeInteger else i
  }

  /** The value the polyfill stores at index `k`. */
  function Element<T>(items: ArrayLike<T>, mapFn: MapFn<T>, k: nat): T
    requires items.Object?
  {
    if mapFn.Callable? then mapFn.f(items.at(k), k) else items.at(k)
  }

  /**
   * `arrayFrom(arrayLike, mapFn)`: rejects `null`/`undefined`, then a supplied
   * mapping function that is not callable, then a length above 2^32 - 1 (the
   * RangeError of `new Array(len)`); otherwise copies (or maps) every index
   * below ToLength(length) into a fresh array, in increasing order.
   */
  method ArrayFrom<T(0)>(arrayLike: ArrayLike<T>, mapFn: MapFn<T>) returns (r: Result<array<T>, ArrayFromError>)
    ensures arrayLike.Null? || arrayLike.Undefined? ==> r == Err(NullOrUndefined)
    ensures arrayLike.Object? && mapFn.NotCallable? ==> r == Err(MapFnNotCallable)
    ensures arrayLike.Object? && !mapFn.NotCallable? && ToLength(arrayLike.length) > MaxArrayLength ==> r == Err(InvalidArrayLength)
    ensures arrayLike.Object? && !mapFn.NotCallable? && ToLength(arrayLike.length) <= MaxArrayLength ==> r.Ok?
    ensures r.Ok? ==> fresh(r.value)
    ensures r.Ok? ==> arrayLike.Object? && r.value.Length == ToLength(arrayLike.length)
    ensures r.Ok? ==> forall k :: 0 <= k < r.value.Length ==>
              r.value[k] == (if mapFn.Callable? then mapFn.f(arrayLike.at(k), k) else arrayLike.at(k))
  {
    if arrayLike.Null? || arrayLike.Undefined? {
      return Err(NullOrUndefined);
    }
    if mapFn.NotCallable? {
      return Err(MapFnNotCallable);
    }
    var len := ToLength(arrayLike.length);
    if len > MaxArrayLength {
      return Err(InvalidArrayLength);
    }
    var a := new T[len];
    var k := 0;
    while k < len
      invariant 0 <= k <= len
      invariant forall j :: 0 <= j < k ==> a[j] == Element(arrayLike, mapFn, j)
    {
      var kValue := arrayLike.at(k);
      if mapFn.Callable? {
        a[k] := mapFn.f(kValue, k);
      } else {
        a[k] := kValue;
      }
      k := k + 1;
    }
    return Ok(a);
  }

  /** ToInteger returns an integer-valued number unchanged. */
  lemma ToIntegerOnIntegers(i: int)
    ensures ToInteger(Finite(i as real)) == Int(i)
  {
    var r := ToInteger(Finite(i as real));
    assert Abs(r.i as real) <= Abs(i as real) < Abs(r.i as real) + 1.0;
  }
}
