/** List operations the screens perform with `Array.filter` on a record's key, and `Array.join`. */
module Lists {

  /** `s.filter(x => key(x) === k)`: the elements whose key is k, in their original order. */
  function Keep<T(!new)>(s: seq<T>, key: T -> string, k: string): (r: seq<T>)
    ensures |r| <= |s|
    ensures forall x :: x in r <==> x in s && key(x) == k
  {
    if s == [] then []
    else (if key(s[0]) == k then [s[0]] else []) + Keep(s[1..], key, k)
  }

  /** `s.filter(x => key(x) !== k)`: the elements whose key is not k, in their original order. */
  function Without<T(!new)>(s: seq<T>, key: T -> string, k: string): (r: seq<T>)
    ensures |r| <= |s|
    ensures forall x :: x in r <==> x in s && key(x) != k
  {
    if s == [] then []
    else (if key(s[0]) != k then [s[0]] else []) + Without(s[1..], key, k)
  }

  lemma AppendAssoc<T>(x: seq<T>, y: seq<T>, z: seq<T>)
    ensures x + (y + z) == (x + y) + z
  {
  }

  /** Filtering distributes over concatenation, so the survivors keep their relative order. */
  lemma {:induction false} KeepAppend<T(!new)>(a: seq<T>, b: seq<T>, key: T -> string, k: string)
    ensures Keep(a + b, key, k) == Keep(a, key, k) + Keep(b, key, k)
  {
    if a != [] {
      assert (a + b)[0] == a[0] && (a + b)[1..] == a[1..] + b;
      KeepAppend(a[1..], b, key, k);
      var head: seq<T> := if key(a[0]) == k then [a[0]] else [];
      var rest, tail := Keep(a[1..], key, k), Keep(b, key, k);
      assert Keep(a + b, key, k) == head + (rest + tail);
      AppendAssoc(head, rest, tail);
    } else {
      assert a + b == b;
    }
  }

  lemma {:induction false} WithoutAppend<T(!new)>(a: seq<T>, b: seq<T>, key: T -> string, k: string)
    ensures Without(a + b, key, k) == Without(a, key, k) + Without(b, key, k)
  {
    if a != [] {
      assert (a + b)[0] == a[0] && (a + b)[1..] == a[1..] + b;
      WithoutAppend(a[1..], b, key, k);
      var head: seq<T> := if key(a[0]) != k then [a[0]] else [];
      var rest, tail := Without(a[1..], key, k), Without(b, key, k);
      assert Without(a + b, key, k) == head + (rest + tail);
      AppendAssoc(head, rest, tail);
    } else {
      assert a + b == b;
    }
  }

  /** Removing a key that no element carries changes nothing. */
  lemma {:induction false} WithoutAbsent<T(!new)>(s: seq<T>, key: T -> string, k: string)
    requires forall x :: x in s ==> key(x) != k
    ensures Without(s, key, k) == s
  {
    if s != [] {
      WithoutAbsent(s[1..], key, k);
    }
  }

  /** Removing the same key twice is the same as removing it once. */
  lemma WithoutIdempotent<T(!new)>(s: seq<T>, key: T -> string, k: string)
    ensures Without(Without(s, key, k), key, k) == Without(s, key, k)
  {
    WithoutAbsent(Without(s, key, k), key, k);
  }

  /** The elements with key k and the elements without it together account for the whole list. */
  lemma {:induction false} KeepWithoutSplit<T(!new)>(s: seq<T>, key: T -> string, k: string)
    ensures |Keep(s, key, k)| + |Without(s, key, k)| == |s|
    ensures multiset(Keep(s, key, k)) + multiset(Without(s, key, k)) == multiset(s)
  {
    if s != [] {
      KeepWithoutSplit(s[1..], key, k);
      assert s == [s[0]] + s[1..];
    }
  }

  /** Keeping a key that no element carries keeps nothing. */
  lemma {:induction false} KeepNone<T(!new)>(s: seq<T>, key: T -> string, k: string)
    requires forall i :: 0 <= i < |s| ==> key(s[i]) != k
    ensures Keep(s, key, k) == []
  {
    if s != [] {
      KeepNone(s[1..], key, k);
    }
  }

  /** The list with its i-th element taken out. */
  function RemoveAt<T>(s: seq<T>, i: nat): (r: seq<T>)
    requires i < |s|
    ensures |r| == |s| - 1
  {
    s[..i] + s[i + 1..]
  }

  /** When `a` is a rearrangement of `b + [x]`, some position of `a` holds x, and the rest of `a` is a rearrangement of b. */
  lemma RemoveMatching<T>(a: seq<T>, b: seq<T>, x: T) returns (i: nat)
    requires multiset(a) == multiset(b + [x])
    ensures i < |a| && a[i] == x
    ensures multiset(RemoveAt(a, i)) == multiset(b)
  {
    assert multiset(b + [x]) == multiset(b) + multiset{x};
    assert x in multiset(a);
    i :| 0 <= i < |a| && a[i] == x;
    var r := RemoveAt(a, i);
    assert a == a[..i] + [x] + a[i + 1..];
    assert multiset(a) == multiset(r) + multiset{x};
    forall y
      ensures multiset(r)[y] == multiset(b)[y]
    {
      assert multiset(a)[y] == multiset(r)[y] + multiset{x}[y];
    }
  }

  /** The value of a string of decimal digits. */
  function DigitsValue(s: string): nat
    requires forall i :: 0 <= i < |s| ==> '0' <= s[i] <= '9'
  {
    if s == [] then 0 else DigitsValue(s[..|s| - 1]) * 10 + (s[|s| - 1] - '0') as nat
  }

  /** A natural number in decimal, as a template literal prints it: no sign, no leading zeros. */
  function NatToString(n: nat): (r: string)
    ensures |r| >= 1 && (forall i :: 0 <= i < |r| ==> '0' <= r[i] <= '9')
    ensures DigitsValue(r) == n
    ensures r[0] == '0' ==> n == 0
  {
    var digit := ['0' + (n % 10) as char];
    if n < 10 then digit
    else
      var r := NatToString(n / 10) + digit;
      assert r[..|r| - 1] == NatToString(n / 10);
      r
  }

  /** `xs.join(sep)`: the strings in order with `sep` between neighbours. */
  function Join(xs: seq<string>, sep: string): (r: string)
    ensures xs == [] ==> r == ""
  {
    if xs == [] then ""
    else if |xs| == 1 then xs[0]
    else xs[0] + sep + Join(xs[1..], sep)
  }

  /** Joining one more string appends the separator and that string. */
  lemma {:induction false} JoinAppend(xs: seq<string>, x: string, sep: string)
    requires |xs| >= 1
    ensures Join(xs + [x], sep) == Join(xs, sep) + sep + x
    decreases |xs|
  {
    if |xs| > 1 {
      assert (xs + [x])[1..] == xs[1..] + [x];
      JoinAppend(xs[1..], x, sep);
    } else {
      assert (xs + [x])[1..] == [x];
    }
  }
}
