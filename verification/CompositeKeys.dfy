/** Partition keys of the form tenant:rest, and how consumers take them apart again. */
module CompositeKeys {
  import opened Base

  function Join(tenant: string, rest: string): string {
    tenant + ":" + rest
  }

  /** The position of the first colon at or after `from`, or the length when there is none. */
  function FirstColon(s: string, from: nat): (i: nat)
    requires from <= |s|
    ensures from <= i <= |s|
    ensures forall k :: from <= k < i ==> s[k] != ':'
    ensures i < |s| ==> s[i] == ':'
    decreases |s| - from
  {
    if from == |s| || s[from] == ':' then from else FirstColon(s, from + 1)
  }

  datatype Parts = Parts(tenant: string, rest: string)

  /** Cut at the first colon; a key without one is not cut. */
  function CutKey(key: string): Option<Parts> {
    var i := FirstColon(key, 0);
    if i == |key| then None else Some(Parts(key[..i], key[i + 1..]))
  }

  /** The channel consumer also refuses an empty tenant and an empty rest. */
  function SplitKey(key: string): Option<Parts> {
    var i := FirstColon(key, 0);
    if i == |key| || i == 0 || i == |key| - 1 then None else Some(Parts(key[..i], key[i + 1..]))
  }

  method IndexOfColon(key: string) returns (i: int)
    ensures i == (if FirstColon(key, 0) == |key| then -1 else FirstColon(key, 0))
  {
    i := 0;
    while i < |key|
      invariant 0 <= i <= |key|
      invariant forall k :: 0 <= k < i ==> key[k] != ':'
    {
      if key[i] == ':' {
        ColonIs(key, i);
        return;
      }
      i := i + 1;
    }
    ColonIs(key, i);
    i := -1;
  }

  /** The first colon is the only position with nothing but other characters before it. */
  lemma ColonIs(s: string, i: nat)
    requires i <= |s| && (forall k :: 0 <= k < i ==> s[k] != ':') && (i < |s| ==> s[i] == ':')
    ensures FirstColon(s, 0) == i
  {
    var _ := FirstColon(s, 0);
  }

  /** Joining and cutting is a round trip exactly for tenants without a colon; the rest may hold any. */
  lemma CutRecovers(tenant: string, rest: string)
    ensures CutKey(Join(tenant, rest)) == Some(Parts(tenant, rest)) <==> ':' !in tenant
  {
    var s := Join(tenant, rest);
    if ':' !in tenant {
      assert forall k :: 0 <= k < |tenant| ==> s[k] == tenant[k];
      ColonIs(s, |tenant|);
      assert s[..|tenant|] == tenant && s[|tenant| + 1..] == rest;
    } else {
      var k :| 0 <= k < |tenant| && tenant[k] == ':';
      assert s[k] == ':';
    }
  }

  /** The channel consumer recovers exactly the pairs of a non-empty colon-free tenant and a non-empty rest. */
  lemma SplitRecovers(tenant: string, rest: string)
    ensures SplitKey(Join(tenant, rest)) == Some(Parts(tenant, rest))
            <==> ':' !in tenant && tenant != "" && rest != ""
  {
    CutRecovers(tenant, rest);
    var s := Join(tenant, rest);
    if SplitKey(s) == Some(Parts(tenant, rest)) { assert CutKey(s) == SplitKey(s); }
  }

  /** So the keys it takes apart are exactly the joins of such pairs. */
  lemma SplitsExactlyWhen(key: string, tenant: string, rest: string)
    ensures SplitKey(key) == Some(Parts(tenant, rest))
            <==> key == Join(tenant, rest) && ':' !in tenant && tenant != "" && rest != ""
  {
    SplitRecovers(tenant, rest);
    if SplitKey(key) == Some(Parts(tenant, rest)) {
      var i := FirstColon(key, 0);
      assert key == key[..i] + [key[i]] + key[i + 1..];
    }
  }

  // ----- three-part keys -----

  /** The key the channel adapter files a location under. */
  function Slot(tenant: string, sku: string, warehouse: string): string {
    tenant + ":" + sku + ":" + warehouse
  }

  /** Two pairs join alike exactly when they are the same pair, or some text and a colon stand at the front of the
      longer rest and, the colon first, at the end of the other pair's first part. */
  lemma JoinsAlike(a: string, x: string, a': string, x': string)
    requires |x| <= |x'|
    ensures Join(a, x) == Join(a', x')
            <==> if |x| == |x'| then a == a' && x == x'
                 else var n := |x'| - |x| - 1; x'[n..] == ":" + x && a == a' + ":" + x'[..n]
  {
    var s, s' := Join(a, x), Join(a', x');
    if |x| == |x'| {
      if s == s' {
        assert a == s[..|a|] == s'[..|a'|] == a';
        assert x == s[|a| + 1..] == s'[|a'| + 1..] == x';
      }
    } else {
      var n := |x'| - |x| - 1;
      assert a' + ":" + x' == a' + ":" + x'[..n] + x'[n..];
      if s == s' {
        assert a == s[..|a|] == s'[..|a'| + 1 + n] == a' + ":" + x'[..n];
        assert ":" + x == s[|a|..] == s'[|a'| + 1 + n..] == x'[n..];
      }
      assert a + ":" + x == a + (":" + x);
    }
  }

  /** When two locations share a slot: they are the same location, or the longer warehouse is some text, a colon and the
      shorter warehouse, and the shorter warehouse's SKU is the other SKU, a colon and that text. */
  lemma SlotsSharedExactlyWhen(t: string, s: string, w: string, t': string, s': string, w': string)
    requires ':' !in t && ':' !in t' && |w| <= |w'|
    ensures Slot(t, s, w) == Slot(t', s', w')
            <==> t == t' && if |w| == |w'| then s == s' && w == w'
                            else var n := |w'| - |w| - 1; w'[n..] == ":" + w && s == s' + ":" + w'[..n]
  {
    JoinsAlike(s, w, s', w');
    assert Slot(t, s, w) == Join(t, Join(s, w)) && Slot(t', s', w') == Join(t', Join(s', w'));
    CutRecovers(t, Join(s, w));
    CutRecovers(t', Join(s', w'));
  }

  /** So slots tell locations apart when warehouses hold no colon. */
  lemma SlotsDiffer(t: string, s: string, w: string, t': string, s': string, w': string)
    requires ':' !in t && ':' !in w && ':' !in t' && ':' !in w'
    requires Slot(t, s, w) == Slot(t', s', w')
    ensures t == t' && s == s' && w == w'
  {
    assert forall n: nat :: n < |w| ==> w[n..][0] != ':';
    assert forall n: nat :: n < |w'| ==> w'[n..][0] != ':';
    if |w| <= |w'| {
      SlotsSharedExactlyWhen(t, s, w, t', s', w');
    } else {
      SlotsSharedExactlyWhen(t', s', w', t, s, w);
    }
  }

  /** And with a colon in a warehouse they do not: every such location shares its slot with another. */
  lemma SlotsCollide(tenant: string, sku: string, warehouse: string, n: nat)
    requires ':' !in tenant && n < |warehouse| && warehouse[n] == ':'
    ensures Slot(tenant, sku, warehouse) == Slot(tenant, sku + ":" + warehouse[..n], warehouse[n + 1..])
  {
    assert warehouse[n..] == ":" + warehouse[n + 1..];
    SlotsSharedExactlyWhen(tenant, sku + ":" + warehouse[..n], warehouse[n + 1..], tenant, sku, warehouse);
  }
}
