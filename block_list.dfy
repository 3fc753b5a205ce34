/**
 * The block list `disabledEndpoints` that both versions of the proxy keep:
 * an array of endpoint keys that `disableEndpoint` pushes to and
 * `enableEndpoint` splices from, and the two ways the versions test a
 * request URL against it.
 */
module BlockList {
  import opened Text

  predicate NoDuplicates(s: seq<string>) {
    forall i, j :: 0 <= i < j < |s| ==> s[i] != s[j]
  }

  /**
   * The list after `disableEndpoint(e)`: `e` is pushed only when absent, so a
   * duplicate-free list stays duplicate-free, and `e` is blocked afterwards.
   */
  function Disabled(s: seq<string>, e: string): (r: seq<string>)
    ensures e in r
    ensures forall x :: x in r <==> x in s || x == e
    ensures NoDuplicates(s) ==> NoDuplicates(r)
    ensures e in s ==> r == s
    ensures e !in s ==> |r| == |s| + 1 && r[..|s|] == s && r[|s|] == e
  {
    if e in s then s else s + [e]
  }

  /** Disabling twice is the same as disabling once. */
  lemma DisableIdempotent(s: seq<string>, e: string)
    ensures Disabled(Disabled(s, e), e) == Disabled(s, e)
  {
  }

  /**
   * The list after `enableEndpoint(e)`: the first entry equal to `e` is taken
   * out and the others keep their order; an absent `e` leaves the list as it is.
   */
  function RemoveFirst(s: seq<string>, e: string): (r: seq<string>)
    ensures e !in s ==> r == s
    ensures e in s ==> |r| == |s| - 1
    ensures forall x :: x != e ==> (x in r <==> x in s)
  {
    if s == [] then []
    else if s[0] == e then s[1..]
    else [s[0]] + RemoveFirst(s[1..], e)
  }

  /** On a duplicate-free list, `e` is gone afterwards and the list stays duplicate-free. */
  lemma {:induction false} RemoveFirstKeepsNoDuplicates(s: seq<string>, e: string)
    requires NoDuplicates(s)
    ensures NoDuplicates(RemoveFirst(s, e)) && e !in RemoveFirst(s, e)
  {
    if s != [] {
      var t := s[1..];
      assert NoDuplicates(t) by {
        forall i, j | 0 <= i < j < |t| ensures t[i] != t[j] {
          assert t[i] == s[i + 1] && t[j] == s[j + 1];
        }
      }
      assert s[0] !in t by {
        forall j | 0 <= j < |t| ensures t[j] != s[0] {
          assert t[j] == s[j + 1];
        }
      }
      if s[0] != e {
        RemoveFirstKeepsNoDuplicates(t, e);
        ConsNoDuplicates(s[0], RemoveFirst(t, e));
      }
    }
  }

  lemma ConsNoDuplicates(x: string, t: seq<string>)
    requires x !in t && NoDuplicates(t)
    ensures NoDuplicates([x] + t)
  {
    var u := [x] + t;
    forall i, j | 0 <= i < j < |u| ensures u[i] != u[j] {
      if i == 0 {
        assert u[j] == t[j - 1];
      } else {
        assert u[i] == t[i - 1] && u[j] == t[j - 1];
      }
    }
  }

  /** `splice(i, 1)` at the index `findIndex` returns is exactly `RemoveFirst`. */
  lemma {:induction false} SpliceIsRemoveFirst(s: seq<string>, e: string, i: nat)
    requires i < |s| && s[i] == e && e !in s[..i]
    ensures RemoveFirst(s, e) == s[..i] + s[i + 1..]
  {
    if i > 0 {
      assert s[0] != e by { assert s[0] == s[..i][0]; }
      assert e !in s[1..][..i - 1] by { assert s[1..][..i - 1] == s[..i][1..]; }
      SpliceIsRemoveFirst(s[1..], e, i - 1);
      assert s[..i] == [s[0]] + s[1..][..i - 1];
      assert s[i + 1..] == s[1..][i..];
    }
  }

  /** An entry other than `e` in front stays in front. */
  lemma RemoveFirstCons(x: string, t: seq<string>, e: string)
    requires x != e
    ensures RemoveFirst([x] + t, e) == [x] + RemoveFirst(t, e)
  {
    assert ([x] + t)[1..] == t;
  }

  /** Taking out the first `e` of a list that only ends with `e` takes out that last entry. */
  lemma {:induction false} RemoveFirstAppended(s: seq<string>, e: string)
    requires e !in s
    ensures RemoveFirst(s + [e], e) == s
  {
    if s == [] {
      assert s + [e] == [e];
    } else {
      var t := s[1..];
      RemoveFirstAppended(t, e);
      assert s + [e] == [s[0]] + (t + [e]);
      RemoveFirstCons(s[0], t + [e], e);
      assert [s[0]] + t == s;
    }
  }

  /** Disabling a key that was not blocked and enabling it again restores the list exactly. */
  lemma {:induction false} DisableThenEnableRestores(s: seq<string>, e: string)
    requires e !in s
    ensures RemoveFirst(Disabled(s, e), e) == s
  {
    RemoveFirstAppended(s, e);
  }

  /** `disabledEndpoints.findIndex(x => x === e)`: the first index holding `e`, or -1. */
  method FindIndex(s: seq<string>, e: string) returns (index: int)
    ensures -1 <= index < |s|
    ensures index == -1 <==> e !in s
    ensures 0 <= index ==> s[index] == e && e !in s[..index]
  {
    index := 0;
    while index < |s|
      invariant 0 <= index <= |s|
      invariant e !in s[..index]
    {
      if s[index] == e {
        return;
      }
      assert s[..index + 1] == s[..index] + [s[index]];
      index := index + 1;
    }
    assert s[..index] == s;
    index := -1;
  }

  /** Some key of the list occurs inside the request URL. */
  predicate BlockedBySubstring(keys: seq<string>, url: string) {
    exists k :: k in keys && Contains(url, k)
  }

  /** `keys.some(k => url.includes(k))`, the blocking test of the current proxy. */
  method SomeContained(keys: seq<string>, url: string) returns (blocked: bool)
    ensures blocked <==> BlockedBySubstring(keys, url)
  {
    var i := 0;
    while i < |keys|
      invariant 0 <= i <= |keys|
      invariant forall j :: 0 <= j < i ==> !Contains(url, keys[j])
    {
      if Contains(url, keys[i]) {
        return true;
      }
      i := i + 1;
    }
    return false;
  }

  /** `keys.some(k => k === url)`, the blocking test of the earlier proxy. */
  method SomeEqual(keys: seq<string>, url: string) returns (blocked: bool)
    ensures blocked <==> url in keys
  {
    var i := 0;
    while i < |keys|
      invariant 0 <= i <= |keys|
      invariant url !in keys[..i]
    {
      if keys[i] == url {
        return true;
      }
      assert keys[..i + 1] == keys[..i] + [keys[i]];
      i := i + 1;
    }
    assert keys[..i] == keys;
    return false;
  }

  /**
   * A blocked key blocks every URL that contains it, whatever comes before
   * or after it (so a blocked path also blocks its sub-paths and queries).
   */
  lemma BlockedKeyBlocksEveryExtension(keys: seq<string>, e: string, prefix: string, suffix: string)
    requires e in keys
    ensures BlockedBySubstring(keys, prefix + e + suffix)
  {
    ContainsInfix(prefix, e, suffix);
  }

  /**
   * Every URL the earlier proxy blocks (equal to a key) the current proxy
   * blocks too (it contains that key), on every list.
   */
  lemma ExactBlockIsSubstringBlock(keys: seq<string>, url: string)
    requires url in keys
    ensures BlockedBySubstring(keys, url)
  {
    assert url[0..|url|] == url;
    assert MatchesAt(url, url, 0);
  }

  /**
   * The converse fails: with only `e` listed, `e` followed by anything
   * non-empty is blocked by containment but not by exact matching.
   */
  lemma ExactMatchMissesExtensions(e: string, suffix: string)
    requires suffix != []
    ensures (e + suffix) !in [e]
    ensures BlockedBySubstring([e], e + suffix)
  {
    ContainsInfix([], e, suffix);
    assert [] + e + suffix == e + suffix;
  }

  /** After `enableEndpoint(e)` on a duplicate-free list, `e` alone no longer blocks anything. */
  lemma EnabledKeyNoLongerBlocks(keys: seq<string>, e: string, url: string)
    requires NoDuplicates(keys)
    requires forall k :: k in keys && k != e ==> !Contains(url, k)
    ensures !BlockedBySubstring(RemoveFirst(keys, e), url)
  {
    RemoveFirstKeepsNoDuplicates(keys, e);
  }
}
