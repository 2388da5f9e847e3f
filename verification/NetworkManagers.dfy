/** The managers of a worker node that draw and recycle network identifiers, updated in place. */
module NetworkManagers {
  import opened Basics
  import opened Options
  import opened NetworkPool

  class IPManager {
    var allocationCounter: nat

    constructor ()
      ensures allocationCounter == 0
    {
      allocationCounter := 0;
    }

    /** Draws the next counter value; none when the addresses have run out and the process exits. */
    method GetUniqueCounterValue() returns (value: Option<nat>)
      modifies this
      ensures old(allocationCounter) < ADDRESSES ==>
        value == Some(old(allocationCounter)) && allocationCounter == old(allocationCounter) + 1
      ensures old(allocationCounter) >= ADDRESSES ==> value == None && allocationCounter == old(allocationCounter)
    {
      if allocationCounter >= ADDRESSES {
        return None;
      }
      value := Some(allocationCounter);
      allocationCounter := allocationCounter + 1;
    }

    /** Every value the counter can have gives a valid address, so the code's answer to an invalid one is
        never used. */
    method GenerateRawGatewayIP() returns (address: Option<Address>)
      modifies this
      ensures old(allocationCounter) < ADDRESSES ==> allocationCounter == old(allocationCounter) + 1
      ensures old(allocationCounter) < ADDRESSES ==> address == Some(RawGateway(old(allocationCounter)))
      ensures old(allocationCounter) >= ADDRESSES ==> address == None && allocationCounter == old(allocationCounter)
    {
      var value := GetUniqueCounterValue();
      if value.None? {
        return None;
      }
      var third, fourth := value.value / 256, value.value % 256;
      address := Some(Address(third, fourth));
    }

    /** Draws until the address does not end in 0 or 255. */
    method GenerateSingleIP() returns (address: Option<Address>)
      requires allocationCounter <= ADDRESSES
      modifies this
      ensures allocationCounter <= ADDRESSES
      ensures match NextHost(old(allocationCounter))
        case None => address == None && allocationCounter == ADDRESSES
        case Some(h) => address == Some(RawGateway(h)) && allocationCounter == h + 1
    {
      var c, d := 0, 0;
      while d == 0 || d == 255
        invariant allocationCounter <= ADDRESSES
        invariant d == 0 || d == 255 ==> NextHost(allocationCounter) == NextHost(old(allocationCounter))
        invariant !(d == 0 || d == 255) ==>
          (allocationCounter > 0 && NextHost(old(allocationCounter)) == Some(allocationCounter - 1)
           && Address(c, d) == RawGateway(allocationCounter - 1))
        decreases if d == 0 || d == 255 then 1 + ADDRESSES - allocationCounter else 0
      {
        var raw := GenerateRawGatewayIP();
        if raw.None? {
          return None;
        }
        c, d := raw.value.third, raw.value.fourth;
      }
      address := Some(Address(c, d));
    }
  }

  class VETHNameGenerator {
    var counter: nat

    constructor ()
      ensures counter == 0
    {
      counter := 0;
    }

    /** Ids advance by two, one for each end of the pair. */
    method Generate() returns (id: nat)
      modifies this
      ensures id == old(counter) && counter == old(counter) + 2
    {
      id := counter;
      counter := counter + 2;
    }
  }

  class NetworkPoolManager {
    const internalIPManager: IPManager
    const exposedIPManager: IPManager
    const interfaceNameGenerator: VETHNameGenerator
    const maxNetworkPoolSize: nat
    var pool: seq<Option<Network>>
    var exited: bool
    ghost var leased: seq<Network>

    ghost predicate Valid()
      reads this, internalIPManager, exposedIPManager
    {
      internalIPManager != exposedIPManager && exposedIPManager.allocationCounter <= ADDRESSES
    }

    ghost function View(): State
      reads this, internalIPManager, exposedIPManager, interfaceNameGenerator
    {
      State(interfaceNameGenerator.counter, internalIPManager.allocationCounter, exposedIPManager.allocationCounter,
            pool, leased, maxNetworkPoolSize, exited)
    }

    /** An empty pool; FillPool is called next. */
    constructor (networkPoolSize: int)
      ensures Valid() && View() == Initial(networkPoolSize)
      ensures fresh(internalIPManager) && fresh(exposedIPManager) && fresh(interfaceNameGenerator)
    {
      internalIPManager := new IPManager();
      exposedIPManager := new IPManager();
      interfaceNameGenerator := new VETHNameGenerator();
      maxNetworkPoolSize := PoolMax(networkPoolSize);
      pool, leased, exited := [], [], false;
    }

    /** Draws the identifiers of a network, in the order in which the code does. */
    method CreateNetwork(o: Outcome) returns (c: Creation)
      requires Valid() && !exited
      modifies this`exited, internalIPManager, exposedIPManager, interfaceNameGenerator
      ensures Valid() && (View(), c) == Create(old(View()), o)
      ensures pool == old(pool) && leased == old(leased)
      ensures o == FailsEarly ==> c == Failed && View() == old(View())
      ensures c == Exited <==> exited
      ensures o == FailsLate && !exited ==> c == Failed
      ensures o == Succeeds && !exited ==>
        && c.Created? && c.network.veth == old(interfaceNameGenerator.counter)
        && c.network.subnet == RawGateway(old(internalIPManager.allocationCounter))
        && exposedIPManager.allocationCounter > 0
        && c.network.exposed == RawGateway(exposedIPManager.allocationCounter - 1)
    {
      if o == FailsEarly {
        return Failed;
      }
      var id := interfaceNameGenerator.Generate();
      var subnet := internalIPManager.GenerateRawGatewayIP();
      if subnet.None? {
        exited := true;
        return Exited;
      }
      var address := exposedIPManager.GenerateSingleIP();
      if address.None? {
        exited := true;
        return Exited;
      }
      c := if o == FailsLate then Failed else Created(Network(id, subnet.value, address.value));
    }

    /** Fills the pool. The outcome of each creation is given; a failed one leaves a nil entry. */
    method FillPool(outcomes: seq<Outcome>) returns (ghost run: seq<Action>)
      requires Valid() && !exited && |outcomes| >= maxNetworkPoolSize
      modifies this`pool, this`exited, internalIPManager, exposedIPManager, interfaceNameGenerator
      ensures Valid() && Legal(old(View()), run) && View() == Exec(old(View()), run)
      ensures exited || |pool| == if old(|pool|) < maxNetworkPoolSize then maxNetworkPoolSize else old(|pool|)
      ensures old(pool) <= pool && leased == old(leased) && |pool| <= Max(old(|pool|), maxNetworkPoolSize)
      ensures forall i :: old(|pool|) <= i < |pool| ==> (pool[i].Some? <==> outcomes[i - old(|pool|)] == Succeeds)
    {
      run := [];
      ghost var start := View();
      var i := 0;
      while |pool| < maxNetworkPoolSize
        invariant Valid() && !exited && i == |pool| - old(|pool|) && |pool| >= old(|pool|)
        invariant |pool| <= maxNetworkPoolSize || |pool| == old(|pool|)
        invariant Legal(start, run) && View() == Exec(start, run)
        invariant old(pool) <= pool && leased == old(leased)
        invariant forall i :: old(|pool|) <= i < |pool| ==> (pool[i].Some? <==> outcomes[i - old(|pool|)] == Succeeds)
        decreases maxNetworkPoolSize - |pool|
      {
        ghost var s := View();
        Snoc(start, run, Populate(outcomes[i]));
        run := run + [Populate(outcomes[i])];
        var c := CreateNetwork(outcomes[i]);
        if c.Exited? {
          return;
        }
        pool := pool + [if c.Created? then Some(c.network) else None];
        i := i + 1;
      }
    }

    /** Hands out the oldest entry, or a new network when the pool is empty. Refilling is left to a later
        call of FillPool, as the code starts it in the background. */
    method GetOneConfig(o: Outcome) returns (config: Option<Network>)
      requires Valid() && !exited
      modifies this, internalIPManager, exposedIPManager, interfaceNameGenerator
      ensures Valid() && View() == GetStep(old(View()), o)
      ensures config.Some? ==> leased == old(leased) + [config.value]
      ensures config.None? ==> leased == old(leased)
      ensures old(pool) != [] ==> config == old(pool)[0] && pool == old(pool)[1..] && !exited
      ensures old(pool) == [] ==> pool == [] && (config.Some? <==> o == Succeeds && !exited)
    {
      if |pool| == 0 {
        var c := CreateNetwork(o);
        config := if c.Created? then Some(c.network) else None;
      } else {
        config := pool[0];
        pool := pool[1..];
      }
      if config.Some? {
        leased := leased + [config.value];
      }
    }

    /** Puts a configuration back into the pool, or destroys it when the pool is full. */
    method GiveUpNetwork(config: Option<Network>) returns (recycled: bool)
      requires Valid() && !exited
      modifies this`pool, this`leased, this`exited
      ensures Valid() && View() == GiveUpStep(old(View()), config)
      ensures recycled == (old(|pool|) < maxNetworkPoolSize)
      ensures pool == if recycled then old(pool) + [config] else old(pool)
      ensures exited <==> !recycled && config.None?
    {
      recycled := false;
      if |pool| < maxNetworkPoolSize {
        pool := pool + [config];
        recycled := true;
      }
      if !recycled && config.None? {
        exited := true;
      } else if config.Some? {
        leased := EndLease(leased, config.value);
      }
    }
  }
}
