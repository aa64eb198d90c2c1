/** Vocabulary shared by every module: bytes, machine-word sizes and the
    arithmetic that the source performs on `uint32_t`, `uint64_t` and `int`. */
module Base {

  datatype Option<+T> = None | Some(value: T)

  type Byte = x: int | 0 <= x < 256
  type Bytes = seq<Byte>

  const U32: nat := 0x1_0000_0000
  const U64: nat := 0x1_0000_0000_0000_0000
  const INT32_MAX: nat := 0x7FFF_FFFF

  /** `++` and `--` on a `uint64_t`. */
  function Inc64(x: nat): nat {
    (x + 1) % U64
  }

  function Dec64(x: nat): nat {
    (x + (U64 - 1)) % U64
  }

  function Min(a: nat, b: nat): (r: nat)
    ensures r <= a && r <= b && (r == a || r == b)
  {
    if a <= b then a else b
  }

  /** Conversion of a count to a C++ `int`: two's complement, 32 bits. */
  function ToInt32(n: nat): (r: int)
    ensures -0x8000_0000 <= r <= 0x7FFF_FFFF && (r - n) % 0x1_0000_0000 == 0
  {
    var low := n % U32;
    if low <= INT32_MAX then low else low - U32
  }

  /** Two counts look equal as `int` exactly when they agree modulo 2^32. */
  lemma ToInt32Equal(a: nat, b: nat)
    ensures ToInt32(a) == ToInt32(b) <==> a % U32 == b % U32
  {
  }

  /** The first `n` elements, or all of them when there are fewer. */
  function Take<T>(s: seq<T>, n: nat): (r: seq<T>)
    ensures r <= s && (if |s| < n then r == s else |r| == n)
  {
    s[..Min(|s|, n)]
  }

  /** A sub-multiset with as many elements is the whole multiset. */
  lemma SameSizeSubMultiset<T>(a: multiset<T>, b: multiset<T>)
    requires a <= b && |a| == |b|
    ensures a == b
  {
    assert b == a + (b - a);
    assert |b - a| == 0;
  }

  lemma ConcatAssoc<T>(a: seq<T>, b: seq<T>, c: seq<T>)
    ensures a + b + c == a + (b + c)
  {
  }

  lemma SplitLast<T>(s: seq<T>) returns (init: seq<T>, last: T)
    requires s != []
    ensures init == s[..|s| - 1] && last == s[|s| - 1] && s == init + [last]
  {
    init, last := s[..|s| - 1], s[|s| - 1];
  }

  lemma SplitFirst<T>(s: seq<T>)
    requires s != []
    ensures [s[0]] + s[1..] == s
  {
  }
}
