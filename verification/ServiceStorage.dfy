/** A service of the control plane as the source updates it: the scaling loop, sandbox failures and
    node deregistration, each run to completion. Every method is one run of the machine of Scaling. */
module ServiceStorage {
  import opened Basics
  import opened Options
  import opened Endpoints
  import opened Scaling

  /** The sandboxes that came about among the first `n` requested, in the order they did. */
  function Came(results: nat -> Option<Endpoint>, n: nat): (s: seq<Endpoint>)
    ensures |s| <= n
  {
    if n == 0 then []
    else Came(results, n - 1) + if results(n - 1).Some? then [results(n - 1).value] else []
  }

  ghost predicate AllSucceed(results: nat -> Option<Endpoint>, n: int) {
    forall i: nat :: i < n ==> results(i).Some?
  }

  lemma {:induction false} AllCame(results: nat -> Option<Endpoint>, n: nat)
    requires AllSucceed(results, n)
    ensures |Came(results, n)| == n && forall i: nat :: i < n ==> Came(results, n)[i] == results(i).value
  {
    if n > 0 {
      AllCame(results, n - 1);
    }
  }

  class ServiceInfoStorage {
    var actualScale: int
    var endpoints: seq<Endpoint>
    var missingVictims: nat
    ghost var loop: Loop

    ghost function View(): Service
      reads this
    {
      Service(actualScale, endpoints, loop, None, None, missingVictims)
    }

    constructor ()
      ensures View() == NEW_SERVICE
    {
      actualScale, endpoints, missingVictims, loop := 0, [], 0, Idle;
    }

    /** The sandboxes requested by one upscaling, in the order they complete; `None` is a failed
        placement or creation. */
    method DoUpscaling(toCreate: nat, results: nat -> Option<Endpoint>) returns (ghost run: seq<Action>)
      requires loop == Creating(toCreate)
      requires forall i: nat :: results(i).Some? ==> results(i).value !in endpoints
      requires forall i: nat, j: nat :: results(i).Some? && i != j ==> results(i) != results(j)
      modifies this
      ensures Legal(old(View()), run) && View() == Exec(old(View()), run)
      ensures loop == Idle && missingVictims == old(missingVictims)
      ensures endpoints == old(endpoints) + Came(results, toCreate)
      ensures actualScale == old(actualScale) - (toCreate - |Came(results, toCreate)|)
    {
      ghost var before := View();
      run := [];
      for i := 0 to toCreate
        invariant loop == Creating(toCreate - i) && missingVictims == old(missingVictims)
        invariant Legal(before, run) && View() == Exec(before, run)
        invariant endpoints == old(endpoints) + Came(results, i)
        invariant actualScale == old(actualScale) - (i - |Came(results, i)|)
        invariant forall e :: e in endpoints ==> e in old(endpoints) || exists j: nat :: j < i && results(j) == Some(e)
      {
        match results(i) {
          case None =>
            Append(before, run, CreateFailed);
            run := run + [CreateFailed];
            actualScale := actualScale - 1;
          case Some(e) =>
            Append(before, run, Created(e));
            run := run + [Created(e)];
            endpoints := endpoints + [e];
        }
        loop := Creating(toCreate - i - 1);
      }
      Append(before, run, Unlock);
      run := run + [Unlock];
      loop := Idle;
    }

    method EvictVictims(before: int, desired: int, random: nat -> nat)
      returns (evicted: set<Endpoint>, ghost run: seq<Action>)
      requires loop == Swapped(before, desired) && before > desired && Distinct(endpoints)
      modifies this
      ensures Legal(old(View()), run) && View() == Exec(old(View()), run)
      ensures loop == Idle && actualScale == old(actualScale)
      ensures evicted <= Elements(old(endpoints)) && |evicted| == Min(before - desired, old(|endpoints|))
      ensures endpoints == Exclude(old(endpoints), evicted) && |endpoints| == old(|endpoints|) - |evicted|
      ensures missingVictims == old(missingVictims) + Missing(before, desired, old(|endpoints|))
    {
      ghost var start := View();
      var remaining, shortfall;
      remaining, evicted, shortfall := DoDownscaling(endpoints, before, desired, random);
      Append(start, [], Evict(evicted));
      run := [Evict(evicted)];
      assert [] + [Evict(evicted)] == [Evict(evicted)];
      endpoints := remaining;
      missingVictims := missingVictims + shortfall;
      loop := Idle;
    }

    /** One iteration of the scaling loop: swap the scale, then bring the list in line with it. */
    method ScalingIteration(desired: int, results: nat -> Option<Endpoint>, random: nat -> nat)
      returns (evicted: set<Endpoint>)
      requires loop == Idle && Conserved(View())
      requires forall i: nat :: results(i).Some? ==> results(i).value !in endpoints
      requires forall i: nat, j: nat :: results(i).Some? && i != j ==> results(i) != results(j)
      modifies this
      ensures loop == Idle && Conserved(View())
      ensures old(actualScale) <= desired ==>
        var came := Came(results, desired - old(actualScale));
        && evicted == {} && endpoints == old(endpoints) + came
        && actualScale == old(actualScale) + |came| && missingVictims == old(missingVictims)
      ensures old(actualScale) > desired ==>
        && evicted <= Elements(old(endpoints)) && |evicted| == Min(old(actualScale) - desired, old(|endpoints|))
        && endpoints == Exclude(old(endpoints), evicted) && actualScale == desired
        && missingVictims == old(missingVictims) + Missing(old(actualScale), desired, old(|endpoints|))
      ensures old(actualScale) == old(|endpoints|) && desired >= 0 ==>
        actualScale == |endpoints| <= Max(desired, old(|endpoints|))
      ensures old(actualScale) == old(|endpoints|) >= desired >= 0 ==> |endpoints| == desired
      ensures old(actualScale) == old(|endpoints|) && desired >= 0 ==>
        AllSucceed(results, desired - old(actualScale)) ==> |endpoints| == desired
    {
      evicted := {};
      ghost var start := View();
      var before := actualScale;
      actualScale := desired;
      loop := Swapped(before, desired);
      ConservedStep(start, Swap(desired));
      if before < desired {
        ConservedStep(View(), Lock);
        loop := Creating(desired - before);
        ghost var mid := View();
        ghost var run := DoUpscaling(desired - before, results);
        ConservedRun(mid, run);
        if AllSucceed(results, desired - before) {
          AllCame(results, desired - before);
        }
      } else if before > desired {
        ghost var mid := View();
        ghost var run;
        evicted, run := EvictVictims(before, desired, random);
        ConservedRun(mid, run);
      } else {
        ConservedStep(View(), Lock);
        loop := Idle;
      }
    }
  }
}
