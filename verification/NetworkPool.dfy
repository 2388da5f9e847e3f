/** Identifiers of the Firecracker networks of a worker node and the pool that recycles them
    (internal/worker_node/sandbox/firecracker/networking.go and internal/worker_node/managers). */
module NetworkPool {
  import opened Options

  /** The last two fields of an address below the manager's prefix. */
  datatype Address = Address(third: nat, fourth: nat)

  /** What is specific to one network: the id of its interface pair (names `veth` and `veth + 1`), the
      subnet of the pair and the exposed address. */
  datatype Network = Network(veth: nat, subnet: Address, exposed: Address)

  /** Commands fail before the identifiers are drawn, after, or not at all. */
  datatype Outcome = FailsEarly | FailsLate | Succeeds

  datatype Creation = Exited | Failed | Created(network: Network)

  /** A failed creation leaves a nil entry in the pool. `leased` are the networks in use. */
  datatype State = State(
    veth: nat, internal: nat, exposed: nat, pool: seq<Option<Network>>, leased: seq<Network>, max: nat, exited: bool)

  const ADDRESSES := 65536
  const HOSTS := 65024

  function PoolMax(size: int): (max: nat)
    ensures max % 16 == 0 && max >= 16 && (size >= 16 ==> max <= size < max + 16)
  {
    var rounded := if size >= 0 then size - size % 16 else 0;
    if rounded < 16 then 16 else rounded
  }

  function Initial(size: int): State {
    State(0, 0, 0, [], [], PoolMax(size), false)
  }

  function RawGateway(value: nat): Address {
    if value / 256 > 255 || value % 256 > 255 then Address(256, 256) else Address(value / 256, value % 256)
  }

  /** The first counter value from c on that gives a usable exposed address; none if the counter runs
      out, which ends the process. */
  function NextHost(c: nat): (h: Option<nat>)
    ensures h.Some? ==> c <= h.value < ADDRESSES && RawGateway(h.value).fourth != 0 && RawGateway(h.value).fourth != 255
    decreases ADDRESSES - c
  {
    if c >= ADDRESSES then None
    else if RawGateway(c).fourth == 0 || RawGateway(c).fourth == 255 then NextHost(c + 1)
    else Some(c)
  }

  /** The order is that of the code: interface id, internal subnet, exposed address. */
  function Create(s: State, o: Outcome): (State, Creation) {
    if o == FailsEarly then (s, Failed)
    else if s.internal >= ADDRESSES then (s.(veth := s.veth + 2, exited := true), Exited)
    else
      match NextHost(s.exposed)
      case None => (s.(veth := s.veth + 2, internal := s.internal + 1, exposed := ADDRESSES, exited := true), Exited)
      case Some(h) =>
        var n := Network(s.veth, RawGateway(s.internal), RawGateway(h));
        var drawn := s.(veth := s.veth + 2, internal := s.internal + 1, exposed := h + 1);
        (drawn, if o == FailsLate then Failed else Created(n))
  }

  datatype Action = Get(outcome: Outcome) | Populate(outcome: Outcome) | GiveUp(config: Option<Network>)

  predicate Enabled(s: State, a: Action) {
    !s.exited && (a.Populate? ==> |s.pool| < s.max)
  }

  function GetStep(s: State, o: Outcome): State {
    if s.pool != [] then
      s.(pool := s.pool[1..], leased := if s.pool[0].Some? then s.leased + [s.pool[0].value] else s.leased)
    else
      var (t, c) := Create(s, o);
      t.(leased := if c.Created? then t.leased + [c.network] else t.leased)
  }

  function Entry(c: Creation): Option<Network> {
    if c.Created? then Some(c.network) else None
  }

  /** One turn of the populating loop; it does not come back if the process exits. */
  function PopulateStep(s: State, o: Outcome): State {
    var (t, c) := Create(s, o);
    if c.Exited? then t else t.(pool := t.pool + [Entry(c)])
  }

  /** The leases without the first one of the network, if there is one. */
  function EndLease(leased: seq<Network>, n: Network): seq<Network> {
    if leased == [] then []
    else if leased[0] == n then leased[1..]
    else [leased[0]] + EndLease(leased[1..], n)
  }

  /** Whatever is given up goes into the pool if there is room. If not, a network is destroyed, and a nil
      configuration is dereferenced, which ends the process. */
  function GiveUpStep(s: State, config: Option<Network>): State {
    if |s.pool| < s.max then
      s.(pool := s.pool + [config], leased := if config.Some? then EndLease(s.leased, config.value) else s.leased)
    else if config.None? then s.(exited := true)
    else s.(leased := EndLease(s.leased, config.value))
  }

  function Apply(s: State, a: Action): State
    requires Enabled(s, a)
  {
    match a
    case Get(o) => GetStep(s, o)
    case Populate(o) => PopulateStep(s, o)
    case GiveUp(config) => GiveUpStep(s, config)
  }

  predicate Legal(s: State, run: seq<Action>)
    decreases |run|
  {
    run == [] || (Enabled(s, run[0]) && Legal(Apply(s, run[0]), run[1..]))
  }

  function Exec(s: State, run: seq<Action>): State
    requires Legal(s, run)
    decreases |run|
  {
    if run == [] then s else Exec(Apply(s, run[0]), run[1..])
  }

  lemma {:induction false} Snoc(s: State, run: seq<Action>, a: Action)
    requires Legal(s, run) && Enabled(Exec(s, run), a)
    ensures Legal(s, run + [a]) && Exec(s, run + [a]) == Apply(Exec(s, run), a)
    decreases |run|
  {
    if run == [] {
      assert ([a])[1..] == [];
    } else {
      Snoc(Apply(s, run[0]), run[1..], a);
      assert (run + [a])[1..] == run[1..] + [a];
    }
  }

  // --- Live networks ---------------------------------------------------------------------------------

  function Pooled(pool: seq<Option<Network>>): multiset<Network> {
    if pool == [] then multiset{}
    else (if pool[0].Some? then multiset{pool[0].value} else multiset{}) + Pooled(pool[1..])
  }

  function Live(s: State): multiset<Network> {
    Pooled(s.pool) + multiset(s.leased)
  }

  lemma {:induction false} PooledAppend(pool: seq<Option<Network>>, x: Option<Network>)
    ensures Pooled(pool + [x]) == Pooled(pool) + if x.Some? then multiset{x.value} else multiset{}
  {
    if pool == [] {
      assert ([x])[1..] == [];
    } else {
      PooledAppend(pool[1..], x);
      assert (pool + [x])[1..] == pool[1..] + [x];
    }
  }

  /** All its identifiers were drawn before the counters reached where they are. */
  predicate Drawn(s: State, n: Network) {
    && n.veth % 2 == 0 && n.veth < s.veth
    && n.subnet.third < 256 && n.subnet.fourth < 256 && 256 * n.subnet.third + n.subnet.fourth < s.internal
    && n.exposed.third < 256 && 0 < n.exposed.fourth < 255 && 256 * n.exposed.third + n.exposed.fourth < s.exposed
  }

  /** The two networks share no interface name, subnet or exposed address. */
  predicate Apart(n: Network, m: Network) {
    && n.veth != m.veth && n.veth + 1 != m.veth && m.veth + 1 != n.veth
    && n.subnet != m.subnet && n.exposed != m.exposed
  }

  ghost predicate Separate(live: multiset<Network>) {
    && (forall n :: n in live ==> live[n] == 1)
    && (forall n, m :: n in live && m in live && n != m ==> Apart(n, m))
  }

  ghost predicate NetsOk(s: State) {
    Separate(Live(s)) && forall n :: n in Live(s) ==> Drawn(s, n)
  }

  predicate CountersOk(s: State) {
    && s.veth == 2 * s.internal + (if s.exited && s.veth > 2 * s.internal then 2 else 0)
    && s.internal <= ADDRESSES && s.exposed <= ADDRESSES && |s.pool| <= s.max
  }

  // --- Steps -------------------------------------------------------------------------------------------

  lemma CreateDraws(s: State, o: Outcome)
    requires CountersOk(s) && !s.exited
    ensures var (t, c) := Create(s, o);
      && CountersOk(t) && t.pool == s.pool && t.leased == s.leased && t.max == s.max && t.exited == c.Exited?
      && s.veth <= t.veth && s.internal <= t.internal && s.exposed <= t.exposed
      && (c.Created? ==> Drawn(t, c.network) && !DrawnAny(s, c.network))
  {
  }

  /** Some identifier of the network was drawn before. */
  predicate DrawnAny(s: State, n: Network) {
    || n.veth < s.veth
    || 256 * n.subnet.third + n.subnet.fourth < s.internal
    || 256 * n.exposed.third + n.exposed.fourth < s.exposed
  }

  lemma SeparateMore(live: multiset<Network>, s: State, n: Network)
    requires Separate(live) && (forall m :: m in live ==> Drawn(s, m))
    requires !DrawnAny(s, n) && n.veth % 2 == 0
    ensures Separate(live + multiset{n})
  {
  }

  lemma DrawnStays(s: State, t: State, live: multiset<Network>)
    requires s.veth <= t.veth && s.internal <= t.internal && s.exposed <= t.exposed
    requires forall n :: n in live ==> Drawn(s, n)
    ensures forall n :: n in live ==> Drawn(t, n)
  {
  }

  /** What a creation brings is added to the live networks, or nothing is. */
  lemma NetsCreate(s: State, o: Outcome, after: State)
    requires NetsOk(s) && CountersOk(s) && !s.exited
    requires var (t, c) := Create(s, o);
      && after.veth == t.veth && after.internal == t.internal && after.exposed == t.exposed
      && Live(after) == Live(s) + if c.Created? then multiset{c.network} else multiset{}
    ensures NetsOk(after)
  {
    CreateDraws(s, o);
    var (t, c) := Create(s, o);
    DrawnStays(s, after, Live(s));
    if c.Created? {
      SeparateMore(Live(s), s, c.network);
      assert Drawn(after, c.network);
    } else {
      assert Live(after) == Live(s);
    }
  }

  lemma SeparateFewer(few: multiset<Network>, live: multiset<Network>)
    requires Separate(live) && few <= live
    ensures Separate(few)
  {
  }

  lemma NetsGet(s: State, o: Outcome)
    requires NetsOk(s) && CountersOk(s) && !s.exited
    ensures NetsOk(GetStep(s, o)) && CountersOk(GetStep(s, o))
  {
    if s.pool == [] {
      CreateDraws(s, o);
      LeaseNew(s, Create(s, o).0, Create(s, o).1);
      NetsCreate(s, o, GetStep(s, o));
    } else {
      GetPooled(s, o);
      DrawnStays(s, GetStep(s, o), Live(s));
    }
  }

  lemma LeaseNew(s: State, t: State, c: Creation)
    requires t.pool == s.pool && t.leased == s.leased
    ensures Live(t.(leased := if c.Created? then t.leased + [c.network] else t.leased)) ==
      Live(s) + if c.Created? then multiset{c.network} else multiset{}
  {
  }

  lemma GetPooled(s: State, o: Outcome)
    requires s.pool != []
    ensures Live(GetStep(s, o)) == Live(s)
  {
  }

  lemma NetsPopulate(s: State, o: Outcome)
    requires NetsOk(s) && CountersOk(s) && !s.exited && |s.pool| < s.max
    ensures NetsOk(PopulateStep(s, o)) && CountersOk(PopulateStep(s, o))
  {
    CreateDraws(s, o);
    var (t, c) := Create(s, o);
    PooledAppend(s.pool, Entry(c));
    NetsCreate(s, o, PopulateStep(s, o));
  }

  lemma NetsGiveUp(s: State, config: Option<Network>)
    requires NetsOk(s) && CountersOk(s) && (config.Some? ==> config.value in s.leased)
    ensures NetsOk(GiveUpStep(s, config))
  {
    var s' := GiveUpStep(s, config);
    GiveUpLive(s, config);
    SeparateFewer(Live(s'), Live(s));
    DrawnStays(s, s', Live(s));
  }

  lemma {:induction false} EndLeaseBag(leased: seq<Network>, n: Network)
    ensures multiset(EndLease(leased, n)) == multiset(leased) - multiset{n}
  {
    if leased == [] {
    } else if leased[0] == n {
      assert leased == [leased[0]] + leased[1..];
    } else {
      EndLeaseBag(leased[1..], n);
      assert leased == [leased[0]] + leased[1..];
    }
  }

  /** Giving up moves a lease to the pool, or ends it; a network that was not leased is added. */
  lemma GiveUpLive(s: State, config: Option<Network>)
    ensures config.None? ==> Live(GiveUpStep(s, config)) == Live(s)
    ensures config.Some? && config.value in s.leased ==> Live(GiveUpStep(s, config)) <= Live(s)
    ensures config.Some? && |s.pool| < s.max ==>
      Live(GiveUpStep(s, config)) == Live(s) + if config.value in s.leased then multiset{} else multiset{config.value}
  {
    PooledAppend(s.pool, config);
    if config.Some? {
      EndLeaseBag(s.leased, config.value);
    }
  }

  lemma CountersStep(s: State, a: Action)
    requires CountersOk(s) && Enabled(s, a)
    ensures CountersOk(Apply(s, a)) && Apply(s, a).max == s.max
  {
    if !a.GiveUp? {
      CreateDraws(s, a.outcome);
    }
  }

  /** A network is given up only while it is leased. */
  predicate Proper(s: State, a: Action) {
    a.GiveUp? && a.config.Some? ==> a.config.value in s.leased
  }

  predicate Disciplined(s: State, run: seq<Action>)
    requires Legal(s, run)
    decreases |run|
  {
    run == [] || (Proper(s, run[0]) && Disciplined(Apply(s, run[0]), run[1..]))
  }

  lemma NetsStep(s: State, a: Action)
    requires NetsOk(s) && CountersOk(s) && Enabled(s, a) && Proper(s, a)
    ensures NetsOk(Apply(s, a))
  {
    match a
    case Get(o) => NetsGet(s, o);
    case Populate(o) => NetsPopulate(s, o);
    case GiveUp(config) => NetsGiveUp(s, config);
  }

  lemma {:induction false} NetsRun(s: State, run: seq<Action>)
    requires NetsOk(s) && CountersOk(s) && Legal(s, run) && Disciplined(s, run)
    ensures NetsOk(Exec(s, run))
    decreases |run|
  {
    if run != [] {
      NetsStep(s, run[0]);
      CountersStep(s, run[0]);
      NetsRun(Apply(s, run[0]), run[1..]);
    }
  }

  lemma {:induction false} CountersRun(s: State, run: seq<Action>)
    requires CountersOk(s) && Legal(s, run)
    ensures CountersOk(Exec(s, run)) && Exec(s, run).max == s.max
    decreases |run|
  {
    if run != [] {
      CountersStep(s, run[0]);
      CountersRun(Apply(s, run[0]), run[1..]);
    }
  }

  /** Whatever the commands do and in whatever order networks are taken, given up once each and
      created, no two networks in the pool or in use share an interface name, a subnet or an exposed
      address, no network is there twice, exposed addresses never end in 0 or 255, the pool stays within
      its maximum, and the 32-bit interface counter stays far from overflow because the addresses run
      out first. */
  lemma NetworksAreApart(size: int, run: seq<Action>)
    requires Legal(Initial(size), run)
    ensures var s := Exec(Initial(size), run);
      && |s.pool| <= PoolMax(size) && s.veth <= 2 * (ADDRESSES + 1) < 0x8000_0000
      && (Disciplined(Initial(size), run) ==>
            && Separate(Live(s))
            && forall n :: n in Live(s) ==> n.exposed.third < 256 && 0 < n.exposed.fourth < 255)
  {
    CountersRun(Initial(size), run);
    if Disciplined(Initial(size), run) {
      NetsRun(Initial(size), run);
      var s := Exec(Initial(size), run);
      assert forall n :: n in Live(s) ==> Drawn(s, n);
    }
  }

  /** After any such run, giving up a network that is in the pool or in use, while the pool has room, keeps
      the networks apart exactly if it is leased; otherwise it is in the pool twice. */
  lemma SecondGiveUpShares(size: int, run: seq<Action>, n: Network)
    requires Legal(Initial(size), run) && Disciplined(Initial(size), run)
    requires var s := Exec(Initial(size), run); !s.exited && n in Live(s) && |s.pool| < s.max
    ensures Separate(Live(Apply(Exec(Initial(size), run), GiveUp(Some(n))))) <==> n in Exec(Initial(size), run).leased
  {
    CountersRun(Initial(size), run);
    NetsRun(Initial(size), run);
    GiveUpShares(Exec(Initial(size), run), n);
  }

  lemma GiveUpShares(s: State, n: Network)
    requires NetsOk(s) && n in Live(s) && |s.pool| < s.max
    ensures Separate(Live(GiveUpStep(s, Some(n)))) <==> n in s.leased
  {
    GiveUpLive(s, Some(n));
    if n !in s.leased {
      assert Live(GiveUpStep(s, Some(n)))[n] == Live(s)[n] + 1;
    }
  }

  const FIRST := Network(0, Address(0, 0), Address(0, 1))

  lemma FirstTaken(size: int)
    ensures Apply(Initial(size), Get(Succeeds)) ==
      Initial(size).(veth := 2, internal := 1, exposed := 2, leased := [FIRST])
  {
    FirstHost();
    Fields(0, 0);
    Fields(0, 1);
  }

  lemma FirstReturned(size: int)
    ensures var run := [Get(Succeeds), GiveUp(Some(FIRST))];
      && Legal(Initial(size), run) && Disciplined(Initial(size), run)
      && Exec(Initial(size), run) == Initial(size).(veth := 2, internal := 1, exposed := 2, pool := [Some(FIRST)])
  {
    FirstTaken(size);
    var run := [Get(Succeeds), GiveUp(Some(FIRST))];
    assert run[1..] == [GiveUp(Some(FIRST))] && run[1..][1..] == [];
    var s := Apply(Initial(size), Get(Succeeds));
    assert s.pool + [Some(FIRST)] == [Some(FIRST)] && EndLease(s.leased, FIRST) == [];
    assert Exec(s, run[1..]) == Exec(GiveUpStep(s, Some(FIRST)), run[1..][1..]) == GiveUpStep(s, Some(FIRST));
  }

  /** It happens whatever the size of the pool: a network is taken, given up, and given up again. */
  lemma TwiceIsShared(size: int)
    ensures var run := [Get(Succeeds), GiveUp(Some(FIRST))] + [GiveUp(Some(FIRST))];
      Legal(Initial(size), run) && !Separate(Live(Exec(Initial(size), run)))
  {
    var run := [Get(Succeeds), GiveUp(Some(FIRST))];
    FirstReturned(size);
    PooledAppend([], Some(FIRST));
    assert [] + [Some(FIRST)] == [Some(FIRST)];
    SecondGiveUpShares(size, run, FIRST);
    Snoc(Initial(size), run, GiveUp(Some(FIRST)));
  }

  // --- How many networks there can be -----------------------------------------------------------------

  /** The counter value behind the k-th exposed address. */
  function Host(k: nat): nat {
    256 * (k / 254) + k % 254 + 1
  }

  function CounterAfter(k: nat): nat {
    if k == 0 then 0 else Host(k - 1) + 1
  }

  lemma Divide(q: nat, m: nat)
    requires m < 254
    ensures (254 * q + m) / 254 == q && (254 * q + m) % 254 == m
    ensures Host(254 * q + m) == 256 * q + m + 1
  {
  }

  lemma Fields(q: nat, d: nat)
    requires d < 256 && q < 256
    ensures RawGateway(256 * q + d) == Address(q, d)
  {
  }

  /** Past the end of a block of 256 the search skips two values. */
  lemma SkipBlock(q: nat)
    requires 0 < q <= 256
    ensures NextHost(256 * q - 1) == if q < 256 then Some(256 * q + 1) else None
  {
    Fields(q - 1, 255);
    if q < 256 {
      Fields(q, 0);
      Fields(q, 1);
      assert NextHost(256 * q + 1) == Some(256 * q + 1);
    }
    assert NextHost(256 * q) == if q < 256 then Some(256 * q + 1) else None;
  }

  /** After k exposed addresses the next one is the k-th in closed form, and the process exits exactly
      when 65024 have been given out, although the counter allows for 65536. */
  lemma ExposedInOrder(k: nat)
    requires k <= HOSTS
    ensures NextHost(CounterAfter(k)) == if k < HOSTS then Some(Host(k)) else None
    ensures k < HOSTS ==> RawGateway(Host(k)) == Address(k / 254, k % 254 + 1)
  {
    var q, m := k / 254, k % 254;
    ReachesHost(q, m);
    if k < HOSTS {
      Divide(q, m);
      Fields(q, m + 1);
    }
  }

  /** The search from where the previous address was found. */
  lemma ReachesHost(q: nat, m: nat)
    requires m < 254 && (q < 256 || (q == 256 && m == 0))
    ensures NextHost(CounterAfter(254 * q + m)) == if q < 256 then Some(Host(254 * q + m)) else None
  {
    Divide(q, m);
    if m > 0 {
      Divide(q, m - 1);
      Fields(q, m + 1);
    } else if q > 0 {
      Divide(q - 1, 253);
      SkipBlock(q);
    } else {
      FirstHost();
    }
  }

  lemma FirstHost()
    ensures NextHost(0) == Some(1)
  {
  }

  /** Internal subnets and exposed addresses are drawn in step. */
  predicate InStep(s: State) {
    s.exited || (s.exposed == CounterAfter(s.internal) && s.internal <= HOSTS && s.veth == 2 * s.internal)
  }

  lemma CreateInStep(s: State, o: Outcome)
    requires InStep(s) && !s.exited
    ensures InStep(Create(s, o).0)
    ensures o != FailsEarly ==> (Create(s, o).1.Exited? <==> s.internal == HOSTS)
    ensures o == Succeeds && s.internal < HOSTS ==>
      var k := s.internal;
      Create(s, o).1 == Created(Network(2 * k, Address(k / 256, k % 256), Address(k / 254, k % 254 + 1)))
  {
    ExposedInOrder(s.internal);
  }

  lemma {:induction false} InStepRun(s: State, run: seq<Action>)
    requires InStep(s) && Legal(s, run)
    ensures InStep(Exec(s, run))
    decreases |run|
  {
    if run != [] {
      if run[0].Get? || run[0].Populate? {
        CreateInStep(s, run[0].outcome);
      }
      InStepRun(Apply(s, run[0]), run[1..]);
    }
  }

  /** In every reachable state a creation that draws identifiers gives the next network in closed form,
      and it ends the process exactly when 65024 sets of identifiers have been drawn. */
  lemma CapacityExactly(size: int, run: seq<Action>, o: Outcome)
    requires Legal(Initial(size), run) && !Exec(Initial(size), run).exited && o != FailsEarly
    ensures var s := Exec(Initial(size), run);
      && s.internal <= HOSTS && (Create(s, o).1.Exited? <==> s.internal == HOSTS)
      && (o == Succeeds && s.internal < HOSTS ==>
            var k := s.internal;
            Create(s, o).1 == Created(Network(2 * k, Address(k / 256, k % 256), Address(k / 254, k % 254 + 1))))
  {
    InStepRun(Initial(size), run);
    CreateInStep(Exec(Initial(size), run), o);
  }
}
