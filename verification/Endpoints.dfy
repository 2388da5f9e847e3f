/** Sandboxes as the control plane lists them. Lists hold pointers in the source; `ref` is the
    pointer, so two endpoints are the same object exactly when the values are equal. */
module Endpoints {
  import opened Basics
  import opened Options

  datatype Endpoint = Endpoint(ref: nat, sandboxID: string, node: string)

  predicate Distinct(s: seq<Endpoint>) {
    forall i, j :: 0 <= i < j < |s| ==> s[i] != s[j]
  }

  /** The list without the endpoints in `out`, in the original order. */
  function Exclude(s: seq<Endpoint>, out: set<Endpoint>): seq<Endpoint> {
    if s == [] then []
    else if s[|s| - 1] in out then Exclude(s[..|s| - 1], out)
    else Exclude(s[..|s| - 1], out) + [s[|s| - 1]]
  }

  lemma {:induction false} ExcludeMembers(s: seq<Endpoint>, out: set<Endpoint>)
    ensures forall e :: e in Exclude(s, out) <==> e in s && e !in out
    ensures Distinct(s) ==> Distinct(Exclude(s, out))
  {
    if s != [] {
      var init := s[..|s| - 1];
      ExcludeMembers(init, out);
      assert s == init + [s[|s| - 1]];
    }
  }

  lemma ElementsInit(s: seq<Endpoint>)
    requires s != [] && Distinct(s)
    ensures Elements(s) == Elements(s[..|s| - 1]) + {s[|s| - 1]}
    ensures s[|s| - 1] !in Elements(s[..|s| - 1]) && Distinct(s[..|s| - 1])
  {
  }

  lemma {:induction false} ElementsCount(s: seq<Endpoint>)
    requires Distinct(s)
    ensures |Elements(s)| == |s|
  {
    if s != [] {
      ElementsInit(s);
      ElementsCount(s[..|s| - 1]);
    }
  }

  lemma ExcludeCount(s: seq<Endpoint>, out: set<Endpoint>)
    requires Distinct(s) && out <= Elements(s)
    ensures |Exclude(s, out)| == |s| - |out|
  {
    ExcludeMembers(s, out);
    ElementsCount(s);
    ElementsCount(Exclude(s, out));
    assert Elements(Exclude(s, out)) == Elements(s) - out;
  }

  lemma {:induction false} ExcludeTwice(s: seq<Endpoint>, a: set<Endpoint>, b: set<Endpoint>)
    ensures Exclude(Exclude(s, a), b) == Exclude(s, a + b)
  {
    if s != [] {
      ExcludeTwice(s[..|s| - 1], a, b);
      var last := s[|s| - 1];
      if last !in a {
        assert Exclude(s, a)[..|Exclude(s, a)| - 1] == Exclude(s[..|s| - 1], a);
      }
    }
  }

  /** Dropping one element by position is excluding it. */
  lemma {:induction false} ExcludeOne(s: seq<Endpoint>, k: nat)
    requires Distinct(s) && k < |s|
    ensures Exclude(s, {s[k]}) == s[..k] + s[k + 1..]
  {
    var n := |s| - 1;
    if k == n {
      ExcludeNone(s[..n], {s[n]});
    } else {
      ExcludeOne(s[..n], k);
      assert s[..k] + s[k + 1..] == s[..n][..k] + s[..n][k + 1..] + [s[n]];
    }
  }

  lemma {:induction false} ExcludeNone(s: seq<Endpoint>, out: set<Endpoint>)
    requires Elements(s) !! out
    ensures Exclude(s, out) == s
  {
    if s != [] {
      assert s[|s| - 1] in Elements(s);
      assert Elements(s[..|s| - 1]) <= Elements(s);
      ExcludeNone(s[..|s| - 1], out);
      assert s == s[..|s| - 1] + [s[|s| - 1]];
    }
  }

  /** scaling_loop.go, excludeEndpoints. */
  method ExcludeEndpoints(endpoints: seq<Endpoint>, toExclude: set<Endpoint>) returns (result: seq<Endpoint>)
    ensures result == Exclude(endpoints, toExclude)
  {
    result := [];
    for k := 0 to |endpoints|
      invariant result == Exclude(endpoints[..k], toExclude)
    {
      assert endpoints[..k + 1][..k] == endpoints[..k];
      if endpoints[k] !in toExclude {
        result := result + [endpoints[k]];
      }
    }
    assert endpoints[..|endpoints|] == endpoints;
  }

  predicate IsFirst(endpoints: seq<Endpoint>, k: int, e: Endpoint) {
    0 <= k < |endpoints| && endpoints[k] == e && forall j :: 0 <= j < k ==> endpoints[j].sandboxID != e.sandboxID
  }

  /** helpers.go, searchEndpointByContainerName: the first endpoint with the id. */
  method SearchEndpoint(endpoints: seq<Endpoint>, id: string) returns (found: Option<Endpoint>)
    ensures found.None? <==> forall e :: e in endpoints ==> e.sandboxID != id
    ensures found.Some? ==> found.value.sandboxID == id && exists k :: IsFirst(endpoints, k, found.value)
  {
    for k := 0 to |endpoints|
      invariant forall j :: 0 <= j < k ==> endpoints[j].sandboxID != id
    {
      if endpoints[k].sandboxID == id {
        assert IsFirst(endpoints, k, endpoints[k]);
        return Some(endpoints[k]);
      }
    }
    return None;
  }

  /** eviction_policy.go: removes the endpoint at a random index. */
  method EvictionPolicy(endpoints: seq<Endpoint>, random: nat) returns (victim: Option<Endpoint>, rest: seq<Endpoint>)
    ensures endpoints == [] ==> victim == None && rest == []
    ensures endpoints != [] ==> victim == Some(endpoints[random % |endpoints|])
    ensures endpoints != [] && Distinct(endpoints) ==> rest == Exclude(endpoints, {victim.value})
  {
    if |endpoints| == 0 {
      return None, [];
    }
    var index := random % |endpoints|;
    rest := [];
    for i := 0 to |endpoints|
      invariant rest == if i <= index then endpoints[..i] else endpoints[..index] + endpoints[index + 1..i]
    {
      if i != index {
        rest := rest + [endpoints[i]];
      }
    }
    victim := Some(endpoints[index]);
    if Distinct(endpoints) {
      ExcludeOne(endpoints, index);
    }
  }

  function Wanted(actualScale: int, desired: int): nat {
    if actualScale > desired then actualScale - desired else 0
  }

  /** How many victims a downscaling cannot find. */
  function Missing(actualScale: int, desired: int, endpoints: nat): nat {
    if Wanted(actualScale, desired) > endpoints then Wanted(actualScale, desired) - endpoints else 0
  }

  /** Evicting one more of the endpoints that are left. */
  lemma EvictOne(endpoints: seq<Endpoint>, evicted: set<Endpoint>, victim: Endpoint)
    requires Distinct(endpoints) && evicted <= Elements(endpoints) && victim in Exclude(endpoints, evicted)
    ensures victim !in evicted && evicted + {victim} <= Elements(endpoints)
    ensures Exclude(Exclude(endpoints, evicted), {victim}) == Exclude(endpoints, evicted + {victim})
    ensures |Exclude(endpoints, evicted + {victim})| == |endpoints| - |evicted + {victim}|
    ensures |evicted + {victim}| == |evicted| + 1 && Distinct(Exclude(endpoints, evicted + {victim}))
  {
    ExcludeMembers(endpoints, evicted);
    ExcludeTwice(endpoints, evicted, {victim});
    ExcludeCount(endpoints, evicted + {victim});
    ExcludeMembers(endpoints, evicted + {victim});
  }

  /** scaling_loop.go, doDownscaling, up to the point where the victims leave the list. `random` are
      the draws of the eviction policy; `shortfall` counts the logged failures to find a victim. */
  method DoDownscaling(endpoints: seq<Endpoint>, actualScale: int, desired: int, random: nat -> nat)
    returns (remaining: seq<Endpoint>, evicted: set<Endpoint>, shortfall: nat)
    requires Distinct(endpoints)
    ensures evicted <= Elements(endpoints) && |evicted| == Min(Wanted(actualScale, desired), |endpoints|)
    ensures remaining == Exclude(endpoints, evicted) && |remaining| == |endpoints| - |evicted|
    ensures shortfall == Missing(actualScale, desired, |endpoints|)
  {
    var current := endpoints;
    evicted, shortfall := {}, 0;
    ExcludeNone(endpoints, {});
    for i := 0 to Wanted(actualScale, desired)
      invariant evicted <= Elements(endpoints) && |evicted| == Min(i, |endpoints|)
      invariant current == Exclude(endpoints, evicted) && Distinct(current)
      invariant |current| == |endpoints| - |evicted|
      invariant shortfall == i - |evicted|
    {
      var victim, rest := EvictionPolicy(current, random(i));
      if victim.None? {
        shortfall := shortfall + 1;
      } else {
        EvictOne(endpoints, evicted, victim.value);
        evicted := evicted + {victim.value};
        current := rest;
      }
    }
    ExcludeCount(endpoints, evicted);
    remaining := ExcludeEndpoints(endpoints, evicted);
  }
}
