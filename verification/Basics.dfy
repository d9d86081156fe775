/** Names, ids, paths and file contents, and the few facts about sequences that every other module uses. */
module Basics {

  type Name = string
  type Id = string

  /** An absolute path: the components after the leading "/"; the root itself is []. */
  type Path = seq<Name>

  newtype Byte = x: int | 0 <= x < 256

  type Bytes = seq<Byte>

  datatype Option<+T> = None | Some(value: T)

  /** At most len bytes from off on; nothing past the end. */
  function Slice(c: Bytes, off: nat, len: nat): Bytes {
    if off >= |c| then [] else if off + len <= |c| then c[off..off + len] else c[off..]
  }

  function Zeros(n: nat): (r: Bytes)
    ensures |r| == n && forall k :: 0 <= k < n ==> r[k] == 0
  {
    seq(n, _ => 0)
  }

  /** Writing past the end leaves zeros in between; writing nothing leaves the file alone. */
  function WrittenAt(c: Bytes, off: nat, b: Bytes): Bytes {
    if b == [] then c
    else if off + |b| <= |c| then c[..off] + b + c[off + |b|..]
    else if off <= |c| then c[..off] + b
    else c + Zeros(off - |c|) + b
  }

  function Resized(c: Bytes, n: nat): Bytes {
    if n <= |c| then c[..n] else c + Zeros(n - |c|)
  }

  lemma SliceBytes(c: Bytes, off: nat, len: nat)
    ensures |Slice(c, off, len)| == if off >= |c| then 0 else if off + len <= |c| then len else |c| - off
    ensures forall k :: 0 <= k < |Slice(c, off, len)| ==> Slice(c, off, len)[k] == c[off + k]
  {
  }

  /** Byte by byte: what was written in its range, what was there elsewhere, zeros in the gap past the old end. */
  lemma WrittenBytes(c: Bytes, off: nat, b: Bytes)
    ensures |WrittenAt(c, off, b)| == if b == [] || off + |b| <= |c| then |c| else off + |b|
    ensures forall k :: 0 <= k < |WrittenAt(c, off, b)| ==>
              WrittenAt(c, off, b)[k] == if off <= k < off + |b| then b[k - off] else if k < |c| then c[k] else 0
  {
  }

  /** Byte by byte: what was there as far as both sizes go, then zeros. */
  lemma ResizedBytes(c: Bytes, n: nat)
    ensures |Resized(c, n)| == n
    ensures forall k :: 0 <= k < n ==> Resized(c, n)[k] == if k < |c| then c[k] else 0
  {
  }

  ghost predicate NoDup<T>(s: seq<T>) {
    forall a, b :: 0 <= a < b < |s| ==> s[a] != s[b]
  }

  /** The list without the element x, everything else in its order. */
  function Without<T(==)>(s: seq<T>, x: T): (r: seq<T>)
    ensures forall y :: y in r ==> y in s && y != x
    ensures forall y :: y in s && y != x ==> y in r
    ensures NoDup(s) ==> NoDup(r)
    ensures x !in s ==> r == s
  {
    if s == [] then []
    else if s[0] == x then Without(s[1..], x)
    else
      assert NoDup(s) ==> NoDup(s[1..]) && s[0] !in s[1..];
      var w := Without(s[1..], x);
      assert NoDup(w) && s[0] !in w ==> NoDup([s[0]] + w);
      [s[0]] + w
  }

  /** A proper prefix. */
  predicate StrictlyBelow<T(==)>(base: seq<T>, p: seq<T>) {
    base <= p && base != p
  }

  lemma PrefixTransitive<T>(a: seq<T>, b: seq<T>, c: seq<T>)
    requires a <= b && b <= c
    ensures a <= c
  {
    assert c[..|a|] == b[..|a|];
  }

  lemma NotPrefix<T>(a: seq<T>, b: seq<T>, c: seq<T>)
    requires a <= b && !(a <= c)
    ensures !(b <= c)
  {
    if b <= c { PrefixTransitive(a, b, c); }
  }

  lemma PrefixOfSnoc<T>(a: seq<T>, b: seq<T>, x: T)
    ensures a <= b + [x] <==> a <= b || a == b + [x]
  {
    if a <= b + [x] && a != b + [x] {
      assert a == (b + [x])[..|a|] == b[..|a|];
    }
    if a <= b {
      assert a == b[..|a|] == (b + [x])[..|a|];
    }
  }
}
