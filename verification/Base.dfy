/** Shared vocabulary: optional values, instants and durations in nanoseconds,
    Go's strings.Split on one separator, and 32-bit wrap-around. */
module Base {

  datatype Option<+T> = None | Some(value: T)

  // An instant on the wall clock, and the difference of two instants, in nanoseconds.
  type Time = int
  type Duration = int

  const SECOND: Duration := 1_000_000_000
  const MINUTE: Duration := 60 * SECOND
  const HOUR: Duration := 60 * MINUTE

  // time.Time{}: it precedes every instant that a running clock shows.
  const ZERO_TIME: Time := 0

  function Min(a: int, b: int): int {
    if a <= b then a else b
  }

  function Max(a: int, b: int): int {
    if a <= b then b else a
  }

  const TWO31: int := 0x8000_0000
  const TWO32: int := 0x1_0000_0000

  predicate IsInt32(x: int) {
    -TWO31 <= x < TWO31
  }

  /** The value a Go int32 holds after an operation whose exact result is x. */
  function Wrap32(x: int): (r: int)
    ensures IsInt32(r)
    ensures IsInt32(x) <==> r == x
    ensures (x - r) % TWO32 == 0
  {
    (x + TWO31) % TWO32 - TWO31
  }

  lemma ModShift(x: int, q: int)
    ensures (x - q * TWO32) % TWO32 == x % TWO32
  {
    var d := x / TWO32;
    var m := x % TWO32;
    assert x - q * TWO32 == (d - q) * TWO32 + m;
  }

  /** Wrapping after each of two subtractions is wrapping once at the end. */
  lemma WrapOnce(a: int, b: int)
    ensures Wrap32(Wrap32(a) - b) == Wrap32(a - b)
  {
    var q := (a + TWO31) / TWO32;
    assert Wrap32(a) - b + TWO31 == (a - b + TWO31) - q * TWO32;
    ModShift(a - b + TWO31, q);
  }

  /** strings.Split(s, sep) for a one-character separator. */
  function Split(s: string, sep: char): (parts: seq<string>)
    ensures |parts| >= 1
  {
    if s == [] then [[]]
    else
      var rest := Split(s[1..], sep);
      if s[0] == sep then [[]] + rest
      else [[s[0]] + rest[0]] + rest[1..]
  }

  function Join(parts: seq<string>, sep: char): string
    requires |parts| >= 1
  {
    if |parts| == 1 then parts[0] else parts[0] + [sep] + Join(parts[1..], sep)
  }

  lemma {:induction false} JoinOfSplit(s: string, sep: char)
    ensures Join(Split(s, sep), sep) == s
    ensures forall p :: p in Split(s, sep) ==> sep !in p
  {
    if s != [] {
      JoinOfSplit(s[1..], sep);
      var rest := Split(s[1..], sep);
      var parts := Split(s, sep);
      if s[0] == sep {
        assert parts[1..] == rest;
      } else {
        assert parts[1..] == rest[1..];
        assert parts[0] == [s[0]] + rest[0];
      }
    }
  }

  lemma {:induction false} SplitOfPlain(s: string, sep: char)
    requires sep !in s
    ensures Split(s, sep) == [s]
  {
    if s != [] {
      SplitOfPlain(s[1..], sep);
      assert [s[0]] + s[1..] == s;
    }
  }

  /** Joining two separator-free parts and splitting gives the two parts back. */
  lemma {:induction false} SplitOfPair(a: string, b: string, sep: char)
    requires sep !in a && sep !in b
    ensures Split(a + [sep] + b, sep) == [a, b]
  {
    var s := a + [sep] + b;
    if a == [] {
      assert s[1..] == b;
      SplitOfPlain(b, sep);
    } else {
      assert s[1..] == a[1..] + [sep] + b;
      SplitOfPair(a[1..], b, sep);
      assert [a[0]] + a[1..] == a;
    }
  }

  /** types.NamespacedName.String: it names one object when neither part holds a slash. */
  function NamespacedName(namespace: string, name: string): string {
    namespace + "/" + name
  }

  lemma NamespacedNameInjective(ns1: string, n1: string, ns2: string, n2: string)
    requires '/' !in ns1 && '/' !in n1 && '/' !in ns2 && '/' !in n2
    requires NamespacedName(ns1, n1) == NamespacedName(ns2, n2)
    ensures ns1 == ns2 && n1 == n2
  {
    SplitOfPair(ns1, n1, '/');
    SplitOfPair(ns2, n2, '/');
    assert [ns1, n1] == [ns2, n2];
  }
}
