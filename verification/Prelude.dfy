/** Shared value types and the few sequence facts several modules need. */
module Prelude {

  datatype Option<+T> = None | Some(value: T)

  datatype Result<+T, +E> = Ok(value: T) | Err(error: E)

  ghost predicate NoDup<T>(s: seq<T>) {
    forall i, j :: 0 <= i < j < |s| ==> s[i] != s[j]
  }

  /** Python's list.remove guarded by a membership test: drops the first occurrence, if any. */
  function Remove<T(==)>(s: seq<T>, x: T): (r: seq<T>)
    ensures forall y :: y in r ==> y in s
  {
    if s == [] then []
    else if s[0] == x then s[1..]
    else [s[0]] + Remove(s[1..], x)
  }

  lemma {:induction false} RemoveOne<T>(s: seq<T>, x: T)
    requires NoDup(s)
    ensures NoDup(Remove(s, x))
    ensures forall y :: y in Remove(s, x) <==> y in s && y != x
    ensures |Remove(s, x)| == if x in s then |s| - 1 else |s|
  {
    if s != [] {
      assert s == [s[0]] + s[1..];
      var rest := s[1..];
      RemoveOne(rest, x);
      assert s[0] !in rest by {
        forall k | 0 <= k < |rest| ensures rest[k] != s[0] { assert rest[k] == s[k + 1]; }
      }
      assert NoDup(rest);
    }
  }

  lemma UpdateTwice<T>(s: seq<T>, i: nat, a: T, b: T)
    requires i < |s|
    ensures s[i := a][i := b] == s[i := b]
  {
  }

  lemma MapRemoveSize<K, V>(m: map<K, V>, k: K)
    requires k in m
    ensures |m - {k}| == |m| - 1
  {
    assert (m - {k}).Keys == m.Keys - {k};
  }

  lemma MapAddSize<K, V>(m: map<K, V>, k: K, v: V)
    requires k !in m
    ensures |m[k := v]| == |m| + 1
  {
    assert m[k := v].Keys == m.Keys + {k};
  }

  ghost predicate Injective<K, V>(m: map<K, V>) {
    forall k, l :: k in m && l in m && k != l ==> m[k] != m[l]
  }

  lemma {:induction false} InjectiveSize<K, V>(m: map<K, V>)
    requires Injective(m)
    ensures |m.Values| == |m|
    decreases |m|
  {
    if m != map[] {
      var k :| k in m;
      var rest := m - {k};
      MapRemoveSize(m, k);
      InjectiveSize(rest);
      assert m.Values == rest.Values + {m[k]} by {
        forall v ensures v in m.Values <==> v in rest.Values || v == m[k] {
          if v in m.Values {
            var l :| l in m && m[l] == v;
            assert l == k || (l in rest && rest[l] == v);
          }
        }
      }
      assert m[k] !in rest.Values;
    }
  }

  function Elems<T>(s: seq<T>): set<T> { set x | x in s }

  lemma {:induction false} NoDupSize<T>(s: seq<T>)
    requires NoDup(s)
    ensures |Elems(s)| == |s|
  {
    if s != [] {
      var rest := s[1..];
      NoDupSize(rest);
      assert Elems(s) == Elems(rest) + {s[0]} by { assert s == [s[0]] + rest; }
      assert s[0] !in rest by {
        forall k | 0 <= k < |rest| ensures rest[k] != s[0] { assert rest[k] == s[k + 1]; }
      }
    }
  }

  ghost predicate Sorted(s: seq<nat>) { forall j, k :: 0 <= j < k < |s| ==> s[j] < s[k] }

  /** A set of numbers can be listed in increasing order in one way only. */
  lemma {:induction false} SortedSame(a: seq<nat>, b: seq<nat>)
    requires Sorted(a) && Sorted(b) && forall i :: i in a <==> i in b
    ensures a == b
    decreases |a|
  {
    assert forall k :: 0 <= k < |a| ==> a[k] in a && a[k] in b;
    assert forall k :: 0 <= k < |b| ==> b[k] in b && b[k] in a;
    if a != [] {
      assert a[0] == b[0];
      forall i ensures i in a[1..] <==> i in b[1..] {
        assert i in a <==> i == a[0] || i in a[1..];
        assert i in b <==> i == b[0] || i in b[1..];
        assert a[0] !in a[1..] && b[0] !in b[1..];
      }
      SortedSame(a[1..], b[1..]);
    }
  }

  /** A string is cut at the first occurrence of a character in one way only. */
  lemma FirstOccurrence(sep: char, c: string, p: string, d: string, q: string)
    requires sep !in c && sep !in d && c + [sep] + p == d + [sep] + q
    ensures c == d && p == q
  {
    var s, t := c + [sep] + p, d + [sep] + q;
    assert s[|c|] == sep && t[|d|] == sep;
    forall i | 0 <= i < |c| ensures s[i] != sep { assert s[i] == c[i]; }
    forall i | 0 <= i < |d| ensures t[i] != sep { assert t[i] == d[i]; }
    assert s[..|c|] == c && t[..|d|] == d && s[|c| + 1..] == p && t[|d| + 1..] == q;
  }
}
