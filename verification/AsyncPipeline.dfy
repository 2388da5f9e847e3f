/** Asynchronous invocations: written ahead to Redis, fired, retried, answered, and replayed after
    a crash (internal/data_plane/proxy/async_proxy_handler.go). A crash may fall between any two
    operations; the HTTP servers accept requests while recovery is still going on. */
module AsyncPipeline {
  /** A UUID. */
  type Code = string

  const STATUS_OK := 200
  const STATUS_BAD_REQUEST := 400
  const STATUS_INTERNAL_ERROR := 500

  /** Unix seconds of Go's zero time, the timestamp of a response that was never stamped. */
  const ZERO_TIME := -62135596800

  /** One minute in nanoseconds, which the collector compares with a difference in seconds. */
  const COLLECT_AFTER := 60000000000

  datatype Response = Response(status: int, timestamp: int)

  predicate Final(r: Response) {
    r.status == STATUS_OK || r.status == STATUS_BAD_REQUEST
  }

  const GAVE_UP := Response(STATUS_INTERNAL_ERROR, ZERO_TIME)

  /** Where the goroutine that owns a request stands: blocked on the channel, received by the
      handler loop, and then one phase per write. */
  datatype Phase = Sending | Taken | Fired(response: Response) | Stored(response: Response) | Saved | Finished

  /** `fires` and `writes` count what has been done for this queue entry in this process. */
  datatype Entry = Entry(code: Code, tries: int, fromClient: bool, phase: Phase, fires: nat, writes: nat)

  datatype Boot = Booting | Loaded | Replaying(left: set<Code>)

  /** `requests` and `answers` are what Redis holds; `memory`, `entries` and `boot` die with the
      process. `issued`, `acked`, `collected` and `unsaved` are history: codes handed out, codes
      returned to clients, codes collected in this process, codes whose answer Redis refused. */
  datatype State = State(
    requests: map<Code, int>, answers: map<Code, Response>,
    memory: map<Code, Response>, entries: map<nat, Entry>, next: nat, boot: Boot,
    issued: set<Code>, acked: set<Code>, collected: set<Code>, unsaved: set<Code>)

  datatype Action =
    | Accept(code: Code)
    | Receive(id: nat)
    | Acknowledge(id: nat)
    | GiveUp(id: nat)
    | Fire(id: nat, response: Response)
    | Store(id: nat)
    | Save(id: nat, written: bool)
    | Delete(id: nat)
    | Collect(now: int)
    | Crash
    | Load
    | Scan
    | Replay(code: Code)

  const EMPTY := State(map[], map[], map[], map[], 0, Booting, {}, {}, {}, {})

  /** Recovery holds the lock of the responses for reading while it replays, so nobody writes them. */
  predicate ReplayLocked(s: State) {
    s.boot.Replaying? && s.boot.left != {}
  }

  /** The entry has been received, even if it is back in the channel for a retry. */
  predicate SendIsOver(e: Entry) {
    e.phase != Sending || e.tries > 0
  }

  predicate Enabled(allowed: int, s: State, a: Action) {
    match a
    case Accept(c) => c !in s.issued
    case Receive(k) => k in s.entries && s.entries[k].phase == Sending && !s.boot.Booting?
    case Acknowledge(k) => k in s.entries && s.entries[k].fromClient && SendIsOver(s.entries[k])
    case GiveUp(k) => k in s.entries && s.entries[k].phase == Taken && s.entries[k].tries >= allowed && !ReplayLocked(s)
    case Fire(k, r) => k in s.entries && s.entries[k].phase == Taken && s.entries[k].tries < allowed
    case Store(k) => k in s.entries && s.entries[k].phase.Fired? && !ReplayLocked(s)
    case Save(k, _) => k in s.entries && s.entries[k].phase.Stored?
    case Delete(k) => k in s.entries && s.entries[k].phase == Saved
    case Collect(_) => !ReplayLocked(s)
    case Crash => true
    case Load => s.boot == Booting
    case Scan => s.boot == Loaded
    case Replay(c) => s.boot.Replaying? && c in s.boot.left
  }

  predicate Expired(now: int, r: Response) {
    now - r.timestamp > COLLECT_AFTER
  }

  function Enqueue(s: State, c: Code, tries: int, fromClient: bool): State {
    s.(entries := s.entries[s.next := Entry(c, tries, fromClient, Sending, 0, 0)], next := s.next + 1)
  }

  function Put(s: State, k: nat, e: Entry): State {
    s.(entries := s.entries[k := e])
  }

  function AfterFire(e: Entry, r: Response): Entry {
    if Final(r) then e.(phase := Fired(r), fires := e.fires + 1)
    else e.(phase := Sending, tries := e.tries + 1, fires := e.fires + 1)
  }

  function Replayed(s: State, c: Code): State
    requires s.boot.Replaying?
  {
    var s' := s.(boot := Replaying(s.boot.left - {c}));
    if c in s.memory then s'
    else Enqueue(s', c, if c in s.requests then s.requests[c] else 0, false)
  }

  function Apply(allowed: int, s: State, a: Action): State
    requires Enabled(allowed, s, a)
  {
    match a
    case Accept(c) => Enqueue(s.(requests := s.requests[c := 0], issued := s.issued + {c}), c, 0, true)
    case Receive(k) => Put(s, k, s.entries[k].(phase := Taken))
    case Acknowledge(k) => s.(acked := s.acked + {s.entries[k].code})
    case GiveUp(k) =>
      var e := s.entries[k];
      Put(s.(memory := s.memory[e.code := GAVE_UP]), k, e.(phase := Finished, writes := e.writes + 1))
    case Fire(k, r) => Put(s, k, AfterFire(s.entries[k], r))
    case Store(k) =>
      var e := s.entries[k];
      Put(s.(memory := s.memory[e.code := e.phase.response]), k,
          e.(phase := Stored(e.phase.response), writes := e.writes + 1))
    case Save(k, written) =>
      var e := s.entries[k];
      Put(if written then s.(answers := s.answers[e.code := e.phase.response]) else s.(unsaved := s.unsaved + {e.code}),
          k, e.(phase := Saved))
    case Delete(k) =>
      var e := s.entries[k];
      Put(s.(requests := s.requests - {e.code}), k, e.(phase := Finished))
    case Collect(now) =>
      s.(memory := map c | c in s.memory && !Expired(now, s.memory[c]) :: s.memory[c],
         collected := s.collected + set c | c in s.memory && Expired(now, s.memory[c]))
    case Crash => s.(memory := map[], entries := map[], next := 0, boot := Booting, collected := {})
    case Load => s.(memory := s.memory + s.answers, boot := Loaded)
    case Scan => s.(boot := Replaying(s.requests.Keys))
    case Replay(c) => Replayed(s, c)
  }

  predicate Legal(allowed: int, s: State, run: seq<Action>)
    decreases |run|
  {
    run == [] || (Enabled(allowed, s, run[0]) && Legal(allowed, Apply(allowed, s, run[0]), run[1..]))
  }

  function Exec(allowed: int, s: State, run: seq<Action>): State
    requires Legal(allowed, s, run)
    decreases |run|
  {
    if run == [] then s else Exec(allowed, Apply(allowed, s, run[0]), run[1..])
  }

  // --- Invariants --------------------------------------------------------------------------

  function Budget(allowed: int): nat {
    if allowed < 0 then 0 else allowed
  }

  /** An entry is fired at most `Budget` times and written to `memory` exactly once in the end. */
  predicate WithinBudget(allowed: int, e: Entry) {
    && 0 <= e.tries <= e.fires <= Budget(allowed)
    && match e.phase
       case Sending => e.fires == e.tries && e.writes == 0
       case Taken => e.fires == e.tries && e.writes == 0
       case Fired(r) => e.fires == e.tries + 1 && e.writes == 0
       case Stored(r) => e.fires == e.tries + 1 && e.writes == 1
       case Saved => e.fires == e.tries + 1 && e.writes == 1
       case Finished => e.writes == 1
  }

  ghost predicate Known(s: State, c: Code) {
    c in s.memory || c in s.collected
  }

  ghost predicate EntryOk(allowed: int, s: State, e: Entry) {
    && WithinBudget(allowed, e)
    && e.code in s.issued
    && (e.phase.Stored? || e.phase == Saved || e.phase == Finished ==> Known(s, e.code))
    && (e.phase == Saved ==> e.code in s.answers || e.code in s.unsaved)
  }

  ghost predicate HeldBy(s: State, k: nat, c: Code) {
    k in s.entries && s.entries[k].code == c && s.entries[k].phase != Finished
  }

  ghost predicate Held(s: State, c: Code) {
    exists k: nat :: HeldBy(s, k, c)
  }

  /** Redis still knows the code, unless it refused to store the answer. */
  ghost predicate Durable(s: State, c: Code) {
    c in s.requests || c in s.answers || c in s.unsaved
  }

  /** The process will still answer the code: it has, it is working on it, or recovery will get to
      it. */
  ghost predicate Pursued(s: State, c: Code) {
    || s.boot.Booting? || s.boot.Loaded?
    || Known(s, c) || Held(s, c)
    || (s.boot.Replaying? && c in s.boot.left)
  }

  ghost predicate KeysOk(s: State) {
    && s.requests.Keys <= s.issued && s.answers.Keys <= s.issued && s.acked <= s.issued
    && (forall c :: c in s.requests ==> s.requests[c] == 0)
    && (!s.boot.Booting? ==> forall c :: c in s.answers ==> Known(s, c))
    && (s.boot.Replaying? ==> s.boot.left <= s.issued)
  }

  ghost predicate EntriesOk(allowed: int, s: State) {
    forall k :: k in s.entries ==> k < s.next && EntryOk(allowed, s, s.entries[k])
  }

  ghost predicate AllDurable(s: State) {
    forall c :: c in s.issued ==> Durable(s, c)
  }

  ghost predicate AllPursued(s: State) {
    forall c :: c in s.issued && c !in s.unsaved ==> Pursued(s, c)
  }

  ghost predicate Inv(allowed: int, s: State) {
    KeysOk(s) && EntriesOk(allowed, s) && AllDurable(s) && AllPursued(s)
  }

  predicate OwnsEntry(a: Action) {
    a.Receive? || a.GiveUp? || a.Fire? || a.Store? || a.Save? || a.Delete?
  }

  /** What a goroutine does to its own entry. */
  lemma EntrySteps(allowed: int, s: State, a: Action)
    requires Inv(allowed, s) && Enabled(allowed, s, a) && OwnsEntry(a)
    ensures var s' := Apply(allowed, s, a);
      && KeysOk(s') && AllDurable(s')
      && s'.entries == s.entries[a.id := s'.entries[a.id]] && EntryOk(allowed, s', s'.entries[a.id])
      && s'.entries[a.id].code == s.entries[a.id].code
      && (s'.entries[a.id].phase == Finished ==> Known(s', s.entries[a.id].code))
  {
    assert EntryOk(allowed, s, s.entries[a.id]);
    var s' := Apply(allowed, s, a);
    forall c | c in s'.issued ensures Durable(s', c) {
      assert Durable(s, c);
    }
  }

  lemma EntryFrame(allowed: int, s: State, a: Action)
    requires Enabled(allowed, s, a) && OwnsEntry(a)
    ensures var s' := Apply(allowed, s, a);
      && s'.next == s.next && s'.issued == s.issued && s'.boot == s.boot && s'.collected == s.collected
      && s.memory.Keys <= s'.memory.Keys && s.answers.Keys <= s'.answers.Keys && s.unsaved <= s'.unsaved
  {
  }

  lemma InvEntry(allowed: int, s: State, a: Action)
    requires Inv(allowed, s) && Enabled(allowed, s, a) && OwnsEntry(a)
    ensures Inv(allowed, Apply(allowed, s, a))
  {
    var s' := Apply(allowed, s, a);
    EntrySteps(allowed, s, a);
    EntryFrame(allowed, s, a);
    assert EntriesOk(allowed, s') by {
      forall k | k in s'.entries ensures k < s'.next && EntryOk(allowed, s', s'.entries[k]) {
        assert EntryOk(allowed, s, s.entries[k]);
      }
    }
    forall c | c in s'.issued && c !in s'.unsaved ensures Pursued(s', c) {
      assert Pursued(s, c);
      if Held(s, c) && !Known(s', c) {
        HeldKept(s, s', a.id, c);
      }
    }
  }

  /** Nothing a goroutine does to its own entry loses hold of another code. */
  lemma HeldKept(s: State, s': State, k: nat, c: Code)
    requires k in s.entries && k in s'.entries && s'.entries == s.entries[k := s'.entries[k]]
    requires s'.entries[k].code == s.entries[k].code
    requires s'.entries[k].phase == Finished ==> s.entries[k].code != c
    requires Held(s, c)
    ensures Held(s', c)
  {
    var j: nat :| HeldBy(s, j, c);
    assert HeldBy(s', j, c);
  }

  /** Adding an entry for `c` to a state that is sound but for `c` itself. */
  lemma InvEnqueue(allowed: int, s: State, c: Code, fromClient: bool)
    requires KeysOk(s) && EntriesOk(allowed, s) && AllDurable(s) && c in s.issued
    requires forall d :: d in s.issued && d != c && d !in s.unsaved ==> Pursued(s, d)
    ensures Inv(allowed, Enqueue(s, c, 0, fromClient))
  {
    var s' := Enqueue(s, c, 0, fromClient);
    assert EntriesOk(allowed, s') by {
      forall k | k in s'.entries ensures k < s'.next && EntryOk(allowed, s', s'.entries[k]) {
        assert k in s.entries ==> EntryOk(allowed, s, s.entries[k]);
      }
    }
    forall d | d in s'.issued ensures Durable(s', d) {
      assert Durable(s, d);
    }
    forall d | d in s'.issued && d !in s'.unsaved ensures Pursued(s', d) {
      if d == c {
        assert HeldBy(s', s.next, c);
      } else {
        assert Pursued(s, d);
        if Held(s, d) {
          var j: nat :| HeldBy(s, j, d);
          assert HeldBy(s', j, d);
        }
      }
    }
  }

  /** Same entries, same history, at least as much known. */
  lemma PursuedKept(s: State, s': State, c: Code)
    requires s'.entries == s.entries && s'.boot == s.boot && Pursued(s, c)
    requires Known(s, c) ==> Known(s', c)
    ensures Pursued(s', c)
  {
    if Held(s, c) {
      var j: nat :| HeldBy(s, j, c);
      assert HeldBy(s', j, c);
    }
  }

  lemma InvAccept(allowed: int, s: State, c: Code)
    requires Inv(allowed, s) && Enabled(allowed, s, Accept(c))
    ensures Inv(allowed, Apply(allowed, s, Accept(c)))
  {
    var s' := s.(requests := s.requests[c := 0], issued := s.issued + {c});
    forall k | k in s'.entries ensures EntryOk(allowed, s', s'.entries[k]) {
      assert EntryOk(allowed, s, s.entries[k]);
    }
    forall d | d in s'.issued ensures Durable(s', d) {
      assert d in s.issued ==> Durable(s, d);
    }
    forall d | d in s'.issued && d != c && d !in s'.unsaved ensures Pursued(s', d) {
      PursuedKept(s, s', d);
    }
    InvEnqueue(allowed, s', c, true);
  }

  lemma InvReplay(allowed: int, s: State, c: Code)
    requires Inv(allowed, s) && Enabled(allowed, s, Replay(c))
    ensures Inv(allowed, Apply(allowed, s, Replay(c)))
  {
    var s' := s.(boot := Replaying(s.boot.left - {c}));
    forall k | k in s'.entries ensures EntryOk(allowed, s', s'.entries[k]) {
      assert EntryOk(allowed, s, s.entries[k]);
    }
    forall d | d in s'.issued ensures Durable(s', d) {
      assert Durable(s, d);
    }
    forall d | d in s'.issued && d != c && d !in s'.unsaved ensures Pursued(s', d) {
      assert Pursued(s, d);
      if Held(s, d) {
        var j: nat :| HeldBy(s, j, d);
        assert HeldBy(s', j, d);
      }
    }
    if c !in s.memory {
      InvEnqueue(allowed, s', c, false);
    } else {
      assert Known(s', c);
    }
  }

  lemma InvCollect(allowed: int, s: State, now: int)
    requires Inv(allowed, s) && Enabled(allowed, s, Collect(now))
    ensures Inv(allowed, Apply(allowed, s, Collect(now)))
  {
    var s' := Apply(allowed, s, Collect(now));
    forall c | Known(s, c) ensures Known(s', c) {
    }
    forall k | k in s'.entries ensures EntryOk(allowed, s', s'.entries[k]) {
      assert EntryOk(allowed, s, s.entries[k]);
    }
    forall c | c in s'.issued ensures Durable(s', c) {
      assert Durable(s, c);
    }
    forall c | c in s'.issued && c !in s'.unsaved ensures Pursued(s', c) {
      PursuedKept(s, s', c);
    }
  }

  /** Crashing, loading the answers, scanning the requests, and replying to a client. */
  lemma InvProcess(allowed: int, s: State, a: Action)
    requires Inv(allowed, s) && Enabled(allowed, s, a)
    requires a.Crash? || a.Load? || a.Scan? || a.Acknowledge?
    ensures Inv(allowed, Apply(allowed, s, a))
  {
    var s' := Apply(allowed, s, a);
    forall k | k in s'.entries ensures EntryOk(allowed, s', s'.entries[k]) {
      assert EntryOk(allowed, s, s.entries[k]);
    }
    forall c | c in s'.issued ensures Durable(s', c) {
      assert Durable(s, c);
    }
    if a.Acknowledge? {
      assert EntryOk(allowed, s, s.entries[a.id]);
      forall c | c in s'.issued && c !in s'.unsaved ensures Pursued(s', c) {
        PursuedKept(s, s', c);
      }
    }
  }

  lemma InvStep(allowed: int, s: State, a: Action)
    requires Inv(allowed, s) && Enabled(allowed, s, a)
    ensures Inv(allowed, Apply(allowed, s, a))
  {
    match a
    case Accept(c) => InvAccept(allowed, s, c);
    case Collect(now) => InvCollect(allowed, s, now);
    case Replay(c) => InvReplay(allowed, s, c);
    case Acknowledge(k) => InvProcess(allowed, s, a);
    case Crash => InvProcess(allowed, s, a);
    case Load => InvProcess(allowed, s, a);
    case Scan => InvProcess(allowed, s, a);
    case _ => InvEntry(allowed, s, a);
  }

  lemma {:induction false} InvRun(allowed: int, s: State, run: seq<Action>)
    requires Inv(allowed, s) && Legal(allowed, s, run)
    ensures Inv(allowed, Exec(allowed, s, run))
    decreases |run|
  {
    if run != [] {
      InvStep(allowed, s, run[0]);
      InvRun(allowed, Apply(allowed, s, run[0]), run[1..]);
    }
  }

  // --- Every run ---------------------------------------------------------------------------

  predicate AllWritten(run: seq<Action>) {
    forall i :: 0 <= i < |run| ==> !(run[i].Save? && !run[i].written)
  }

  lemma {:induction false} UnsavedOnlyByRefusal(allowed: int, s: State, run: seq<Action>)
    requires Legal(allowed, s, run) && AllWritten(run)
    ensures Exec(allowed, s, run).unsaved == s.unsaved
    decreases |run|
  {
    if run != [] {
      UnsavedOnlyByRefusal(allowed, Apply(allowed, s, run[0]), run[1..]);
    }
  }

  predicate Deletes(s: State, a: Action, c: Code) {
    a.Delete? && a.id in s.entries && s.entries[a.id].code == c
  }

  predicate Saves(s: State, a: Action, c: Code) {
    a.Save? && a.written && a.id in s.entries && s.entries[a.id].code == c
  }

  /** Some goroutine deletes the stored request. */
  predicate EverDeleted(allowed: int, s: State, run: seq<Action>, c: Code)
    requires Legal(allowed, s, run)
    decreases |run|
  {
    run != [] && (Deletes(s, run[0], c) || EverDeleted(allowed, Apply(allowed, s, run[0]), run[1..], c))
  }

  /** Redis takes some answer. */
  predicate EverSaved(allowed: int, s: State, run: seq<Action>, c: Code)
    requires Legal(allowed, s, run)
    decreases |run|
  {
    run != [] && (Saves(s, run[0], c) || EverSaved(allowed, Apply(allowed, s, run[0]), run[1..], c))
  }

  lemma StoredStep(allowed: int, s: State, a: Action, c: Code)
    requires Inv(allowed, s) && Enabled(allowed, s, a)
    ensures var s' := Apply(allowed, s, a);
      && (c in s'.answers <==> c in s.answers || Saves(s, a, c))
      && (c in s.issued ==> c in s'.issued && (c in s'.requests <==> c in s.requests && !Deletes(s, a, c)))
      && (c !in s.issued ==> !Deletes(s, a, c) && !Saves(s, a, c) && (c in s'.issued ==> c in s'.requests))
  {
    if OwnsEntry(a) {
      assert EntryOk(allowed, s, s.entries[a.id]);
    }
  }

  lemma {:induction false} StoredRun(allowed: int, s: State, run: seq<Action>, c: Code)
    requires Inv(allowed, s) && Legal(allowed, s, run) && c in Exec(allowed, s, run).issued
    ensures var s' := Exec(allowed, s, run);
      && (c in s'.answers <==> c in s.answers || EverSaved(allowed, s, run, c))
      && (c in s'.requests <==> (c in s.issued ==> c in s.requests) && !EverDeleted(allowed, s, run, c))
    decreases |run|
  {
    if run != [] {
      InvStep(allowed, s, run[0]);
      StoredStep(allowed, s, run[0], c);
      StoredRun(allowed, Apply(allowed, s, run[0]), run[1..], c);
    }
  }

  /** Durability over crashes, exactly: at every point of every run, Redis holds the request or the
      answer of a code if and only if the request was never deleted or some answer was taken. */
  lemma DurableExactly(allowed: int, run: seq<Action>, c: Code)
    requires Legal(allowed, EMPTY, run) && c in Exec(allowed, EMPTY, run).issued
    ensures var s := Exec(allowed, EMPTY, run);
      c in s.requests || c in s.answers <==> !EverDeleted(allowed, EMPTY, run, c) || EverSaved(allowed, EMPTY, run, c)
  {
    StoredRun(allowed, EMPTY, run, c);
  }

  /** If Redis takes every answer, a code that a client was given is a request or an answer that Redis
      holds; in general this is so exactly under the condition above. */
  lemma AcknowledgedIsDurable(allowed: int, run: seq<Action>, c: Code)
    requires Legal(allowed, EMPTY, run) && c in Exec(allowed, EMPTY, run).acked
    ensures var s := Exec(allowed, EMPTY, run);
      && (AllWritten(run) ==> c in s.requests || c in s.answers)
      && (c in s.requests || c in s.answers <==>
            !EverDeleted(allowed, EMPTY, run, c) || EverSaved(allowed, EMPTY, run, c))
  {
    var s := Exec(allowed, EMPTY, run);
    InvRun(allowed, EMPTY, run);
    assert Durable(s, c);
    if AllWritten(run) {
      UnsavedOnlyByRefusal(allowed, EMPTY, run);
    }
    DurableExactly(allowed, run, c);
  }

  /** Once recovery is over, every acknowledged code is answered, collected, or in some goroutine's
      hands, although new requests, retries and the collector ran all along. */
  lemma NothingIsForgotten(allowed: int, run: seq<Action>, c: Code)
    requires Legal(allowed, EMPTY, run) && AllWritten(run)
    requires var s := Exec(allowed, EMPTY, run); c in s.acked && s.boot == Replaying({})
    ensures var s := Exec(allowed, EMPTY, run); c in s.memory || c in s.collected || Held(s, c)
  {
    InvRun(allowed, EMPTY, run);
    UnsavedOnlyByRefusal(allowed, EMPTY, run);
    assert Pursued(Exec(allowed, EMPTY, run), c);
  }

  predicate Recovering(a: Action) {
    a.Load? || a.Scan? || a.Replay?
  }

  lemma {:induction false} RecoveryCollectsNothing(allowed: int, s: State, run: seq<Action>)
    requires Legal(allowed, s, run) && forall i :: 0 <= i < |run| ==> Recovering(run[i])
    ensures Exec(allowed, s, run).collected == s.collected && Exec(allowed, s, run).acked == s.acked
    ensures Exec(allowed, s, run).unsaved == s.unsaved
    decreases |run|
  {
    if run != [] {
      RecoveryCollectsNothing(allowed, Apply(allowed, s, run[0]), run[1..]);
    }
  }

  /** The entries of one code, all of them waiting for the handler with the tries the store has. */
  ghost predicate QueuedOnce(s: State, c: Code) {
    && c in s.requests
    && (exists k :: k in s.entries && s.entries[k] == Entry(c, s.requests[c], false, Sending, 0, 0))
    && (forall j, k | j in s.entries && k in s.entries && s.entries[j].code == c && s.entries[k].code == c :: j == k)
  }

  ghost predicate NotQueued(s: State, c: Code) {
    forall k :: k in s.entries ==> s.entries[k].code != c
  }

  /** How far recovery has come since it began with nothing but what the store held. */
  ghost predicate Restored(crashed: State, s: State) {
    && s.requests == crashed.requests && s.answers == crashed.answers
    && s.memory == (if s.boot.Booting? then map[] else s.answers)
    && (!s.boot.Replaying? ==> s.entries == map[])
    && (forall k :: k in s.entries ==> k < s.next)
    && (s.boot.Replaying? ==> s.boot.left <= s.requests.Keys)
    && (s.boot.Replaying? ==> forall c | c in s.requests && c !in s.boot.left && c !in s.answers :: QueuedOnce(s, c))
    && (forall k :: k in s.entries ==> s.entries[k].code in s.requests && s.entries[k].code !in s.answers)
    && (s.boot.Replaying? ==> forall c | c in s.boot.left :: NotQueued(s, c))
  }

  lemma RestoredReplay(allowed: int, crashed: State, s: State, c: Code)
    requires Restored(crashed, s) && Enabled(allowed, s, Replay(c))
    ensures Restored(crashed, Apply(allowed, s, Replay(c)))
  {
    var s' := Apply(allowed, s, Replay(c));
    assert NotQueued(s, c);
    forall d | d in s'.requests && d !in s'.boot.left && d !in s'.answers ensures QueuedOnce(s', d) {
      if d == c {
        assert s'.entries[s.next] == Entry(c, s.requests[c], false, Sending, 0, 0);
      } else {
        assert QueuedOnce(s, d);
        var k :| k in s.entries && s.entries[k] == Entry(d, s.requests[d], false, Sending, 0, 0);
        assert s'.entries[k] == s.entries[k];
      }
    }
    forall d | d in s'.boot.left ensures NotQueued(s', d) {
      assert NotQueued(s, d);
    }
  }

  lemma {:induction false} RestoredRun(allowed: int, crashed: State, s: State, run: seq<Action>)
    requires Restored(crashed, s) && Legal(allowed, s, run) && forall i :: 0 <= i < |run| ==> Recovering(run[i])
    ensures Restored(crashed, Exec(allowed, s, run))
    decreases |run|
  {
    if run != [] {
      if run[0].Replay? {
        RestoredReplay(allowed, crashed, s, run[0].code);
      }
      RestoredRun(allowed, crashed, Apply(allowed, s, run[0]), run[1..]);
    }
  }

  /** Recovery, exactly: whatever the order of the scan, the responses in memory are the stored ones with
      their values, every stored request without a stored response is queued once, with the tries the
      store has, and no other request is. */
  lemma RecoveryExactly(allowed: int, s: State, recovery: seq<Action>)
    requires var crashed := Apply(allowed, s, Crash);
      && Legal(allowed, crashed, recovery) && (forall i :: 0 <= i < |recovery| ==> Recovering(recovery[i]))
      && Exec(allowed, crashed, recovery).boot == Replaying({})
    ensures var t := Exec(allowed, Apply(allowed, s, Crash), recovery);
      && t.requests == s.requests && t.answers == s.answers && t.memory == s.answers
      && (forall c :: c in s.requests && c !in s.answers ==> QueuedOnce(t, c))
      && (forall k :: k in t.entries ==> t.entries[k].code in s.requests && t.entries[k].code !in s.answers)
  {
    var crashed := Apply(allowed, s, Crash);
    RestoredRun(allowed, crashed, crashed, recovery);
  }

  /** A process that crashes in any reachable state and recovers has every acknowledged code either
      answered in memory, with the stored response if there is one, or queued again. */
  lemma CrashAndRecover(allowed: int, run: seq<Action>, recovery: seq<Action>, c: Code)
    requires Legal(allowed, EMPTY, run) && AllWritten(run) && c in Exec(allowed, EMPTY, run).acked
    requires var crashed := Apply(allowed, Exec(allowed, EMPTY, run), Crash);
      && Legal(allowed, crashed, recovery) && (forall i :: 0 <= i < |recovery| ==> Recovering(recovery[i]))
      && Exec(allowed, crashed, recovery).boot == Replaying({})
    ensures var crashed := Apply(allowed, Exec(allowed, EMPTY, run), Crash);
      var s := Exec(allowed, crashed, recovery);
      && (c in s.memory || Held(s, c))
      && (c in crashed.answers ==> c in s.memory && s.memory[c] == crashed.answers[c])
  {
    RecoveryExactly(allowed, Exec(allowed, EMPTY, run), recovery);
    var s := Exec(allowed, EMPTY, run);
    InvRun(allowed, EMPTY, run);
    UnsavedOnlyByRefusal(allowed, EMPTY, run);
    var crashed := Apply(allowed, s, Crash);
    InvStep(allowed, s, Crash);
    InvRun(allowed, crashed, recovery);
    RecoveryCollectsNothing(allowed, crashed, recovery);
    assert Pursued(Exec(allowed, crashed, recovery), c);
  }

  // --- Where responses come from -------------------------------------------------------------------

  /** A response that ends a request, given by firing a request of the code. */
  datatype Outcome = Outcome(code: Code, response: Response)

  function FiredBy(s: State, a: Action): set<Outcome> {
    if a.Fire? && a.id in s.entries && (a.response.status == 200 || a.response.status == 400)
    then {Outcome(s.entries[a.id].code, a.response)} else {}
  }

  function Outcomes(allowed: int, s: State, run: seq<Action>): set<Outcome>
    requires Legal(allowed, s, run)
    decreases |run|
  {
    if run == [] then {} else FiredBy(s, run[0]) + Outcomes(allowed, Apply(allowed, s, run[0]), run[1..])
  }

  ghost predicate EntryFrom(e: Entry, given: set<Outcome>) {
    (e.phase.Fired? || e.phase.Stored?) ==> Outcome(e.code, e.phase.response) in given
  }

  ghost predicate ValuesFrom(s: State, given: set<Outcome>) {
    && (forall c :: c in s.answers ==> Outcome(c, s.answers[c]) in given)
    && (forall c :: c in s.memory ==> s.memory[c] == GAVE_UP || Outcome(c, s.memory[c]) in given)
    && (forall k :: k in s.entries ==> EntryFrom(s.entries[k], given))
  }

  lemma ValuesEntry(allowed: int, s: State, a: Action, given: set<Outcome>)
    requires ValuesFrom(s, given) && Enabled(allowed, s, a) && OwnsEntry(a)
    ensures ValuesFrom(Apply(allowed, s, a), given + FiredBy(s, a))
  {
    assert EntryFrom(s.entries[a.id], given);
  }

  lemma ValuesStep(allowed: int, s: State, a: Action, given: set<Outcome>)
    requires ValuesFrom(s, given) && Enabled(allowed, s, a)
    ensures ValuesFrom(Apply(allowed, s, a), given + FiredBy(s, a))
  {
    if OwnsEntry(a) {
      ValuesEntry(allowed, s, a, given);
    } else {
      var s' := Apply(allowed, s, a);
      forall c | c in s'.memory
        ensures (c in s.memory && s'.memory[c] == s.memory[c]) || (c in s.answers && s'.memory[c] == s.answers[c])
      {
      }
    }
  }

  lemma {:induction false} ValuesRun(allowed: int, s: State, run: seq<Action>, given: set<Outcome>)
    requires ValuesFrom(s, given) && Legal(allowed, s, run)
    ensures ValuesFrom(Exec(allowed, s, run), given + Outcomes(allowed, s, run))
    decreases |run|
  {
    if run == [] {
      assert given + {} == given;
    } else {
      var rest := Outcomes(allowed, Apply(allowed, s, run[0]), run[1..]);
      ValuesStep(allowed, s, run[0], given);
      ValuesRun(allowed, Apply(allowed, s, run[0]), run[1..], given + FiredBy(s, run[0]));
      assert given + FiredBy(s, run[0]) + rest == given + (FiredBy(s, run[0]) + rest);
    }
  }

  /** Over every run with crashes, a stored response of a code is one that firing a request of that code
      gave with status 200 or 400, and so is a response in memory, unless it is the one for giving up. */
  lemma ResponsesAreGenuine(allowed: int, run: seq<Action>, c: Code)
    requires Legal(allowed, EMPTY, run)
    ensures var s := Exec(allowed, EMPTY, run); var given := Outcomes(allowed, EMPTY, run);
      && (c in s.answers ==> Outcome(c, s.answers[c]) in given)
      && (c in s.memory ==> s.memory[c] == Response(500, ZERO_TIME) || Outcome(c, s.memory[c]) in given)
  {
    ValuesRun(allowed, EMPTY, run, {});
    assert {} + Outcomes(allowed, EMPTY, run) == Outcomes(allowed, EMPTY, run);
  }

  ghost predicate Reachable(allowed: int, s: State) {
    exists run :: Legal(allowed, EMPTY, run) && Exec(allowed, EMPTY, run) == s
  }

  lemma {:induction false} Append(allowed: int, s: State, run: seq<Action>, a: Action)
    requires Legal(allowed, s, run) && Enabled(allowed, Exec(allowed, s, run), a)
    ensures Legal(allowed, s, run + [a])
    ensures Exec(allowed, s, run + [a]) == Apply(allowed, Exec(allowed, s, run), a)
    decreases |run|
  {
    if run == [] {
      assert run + [a] == [a];
    } else {
      Append(allowed, Apply(allowed, s, run[0]), run[1..], a);
      assert (run + [a])[1..] == run[1..] + [a];
    }
  }

  lemma Advance(allowed: int, s: State, a: Action) returns (s': State)
    requires Reachable(allowed, s) && Enabled(allowed, s, a)
    ensures s' == Apply(allowed, s, a) && Reachable(allowed, s')
  {
    var run :| Legal(allowed, EMPTY, run) && Exec(allowed, EMPTY, run) == s;
    Append(allowed, EMPTY, run, a);
    s' := Apply(allowed, s, a);
  }

  /** The one write the source only logs: if Redis refuses the answer, the request is deleted all
      the same, and after a crash an acknowledged code is gone. */
  lemma RefusedAnswerIsLost(c: Code) returns (s: State)
    ensures Reachable(1, s) && c in s.acked && s.boot == Replaying({})
    ensures c !in s.requests && c !in s.answers && c !in s.memory && s.entries == map[]
  {
    s := AnswerRefused(c, Response(STATUS_OK, 0));
    s := Advance(1, s, Crash);
    s := Advance(1, s, Load);
    s := Advance(1, s, Scan);
  }

  /** The store has refused the answer, and the request is gone. */
  lemma AnswerRefused(c: Code, r: Response) returns (s: State)
    requires Final(r)
    ensures Reachable(1, s) && s.requests == map[] && s.answers == map[] && s.acked == {c}
  {
    s := AnswerStored(c, r);
    s := Advance(1, s, Save(0, false));
    s := Advance(1, s, Delete(0));
    assert s.requests == map[];
  }

  /** A request that was accepted, received and acknowledged. */
  lemma OnceAcknowledged(c: Code) returns (s: State)
    ensures Reachable(1, s) && s.requests == map[c := 0] && s.answers == map[] && s.acked == {c}
    ensures 0 in s.entries && s.entries[0] == Entry(c, 0, true, Taken, 0, 0) && s.boot == Loaded
  {
    assert Exec(1, EMPTY, []) == EMPTY;
    s := Advance(1, EMPTY, Load);
    s := Advance(1, s, Accept(c));
    s := Advance(1, s, Receive(0));
    s := Advance(1, s, Acknowledge(0));
  }

  lemma AnswerStored(c: Code, r: Response) returns (s: State)
    requires Final(r)
    ensures Reachable(1, s) && s.requests == map[c := 0] && s.answers == map[] && s.acked == {c}
    ensures 0 in s.entries && s.entries[0] == Entry(c, 0, true, Stored(r), 1, 1)
  {
    s := OnceAcknowledged(c);
    s := Advance(1, s, Fire(0, r));
    s := Advance(1, s, Store(0));
  }

  /** Retry budget: within one process every queue entry is fired at most `Budget` times and written
      to the responses at most once, exactly once by the time it is finished. */
  lemma RetryBudget(allowed: int, run: seq<Action>, k: nat)
    requires Legal(allowed, EMPTY, run) && k in Exec(allowed, EMPTY, run).entries
    ensures var e := Exec(allowed, EMPTY, run).entries[k];
      e.fires <= Budget(allowed) && e.writes <= 1 && (e.phase == Finished ==> e.writes == 1)
  {
    InvRun(allowed, EMPTY, run);
    assert EntryOk(allowed, Exec(allowed, EMPTY, run), Exec(allowed, EMPTY, run).entries[k]);
  }

  function Rank(p: Phase): nat {
    match p
    case Sending => 5
    case Taken => 4
    case Fired(_) => 3
    case Stored(_) => 2
    case Saved => 1
    case Finished => 0
  }

  function Remaining(allowed: int, e: Entry): int {
    6 * (Budget(allowed) - e.tries) + Rank(e.phase)
  }

  function OwnSteps(run: seq<Action>, k: nat): nat {
    if run == [] then 0
    else (if OwnsEntry(run[0]) && run[0].id == k then 1 else 0) + OwnSteps(run[1..], k)
  }

  /** The number of tries left bounds everything that can still happen to an entry. */
  lemma {:induction false} EntryEnds(allowed: int, s: State, run: seq<Action>, k: nat)
    requires Inv(allowed, s) && Legal(allowed, s, run) && k in s.entries
    requires forall i :: 0 <= i < |run| ==> run[i] != Crash
    ensures k in Exec(allowed, s, run).entries
    ensures OwnSteps(run, k) + Remaining(allowed, Exec(allowed, s, run).entries[k]) <= Remaining(allowed, s.entries[k])
    ensures 0 <= Remaining(allowed, Exec(allowed, s, run).entries[k])
    ensures OwnSteps(run, k) <= 6 * Budget(allowed) + 5
    decreases |run|
  {
    assert EntryOk(allowed, s, s.entries[k]);
    if run != [] {
      InvStep(allowed, s, run[0]);
      EntryAdvances(allowed, s, run[0], k);
      EntryEnds(allowed, Apply(allowed, s, run[0]), run[1..], k);
    }
  }

  lemma EntryAdvances(allowed: int, s: State, a: Action, k: nat)
    requires Inv(allowed, s) && Enabled(allowed, s, a) && k in s.entries && a != Crash
    ensures var s' := Apply(allowed, s, a);
      && k in s'.entries
      && (if OwnsEntry(a) && a.id == k then Remaining(allowed, s'.entries[k]) < Remaining(allowed, s.entries[k])
          else s'.entries[k] == s.entries[k])
  {
    assert EntryOk(allowed, s, s.entries[k]);
  }

  /** The next step of an entry; firing and saving may turn out in other ways. */
  function NextStep(allowed: int, k: nat, e: Entry): Action {
    match e.phase
    case Sending => Receive(k)
    case Taken => if e.tries >= allowed then GiveUp(k) else Fire(k, GAVE_UP)
    case Fired(_) => Store(k)
    case Stored(_) => Save(k, true)
    case Saved => Delete(k)
    case Finished => Receive(k)
  }

  /** Once the answers are loaded, the next step of an unfinished entry is enabled, at once or, if it
      writes the responses while recovery has their lock, after the rest of the replay. */
  lemma {:induction false} EntryNeverStuck(allowed: int, s: State, k: nat) returns (wait: seq<Action>)
    requires k in s.entries && k < s.next && s.entries[k].phase != Finished && !s.boot.Booting?
    ensures Legal(allowed, s, wait) && (forall i :: 0 <= i < |wait| ==> wait[i].Replay?)
    ensures var t := Exec(allowed, s, wait);
      k in t.entries && t.entries[k] == s.entries[k] && Enabled(allowed, t, NextStep(allowed, k, t.entries[k]))
    ensures var a := NextStep(allowed, k, s.entries[k]);
      wait != [] ==> ReplayLocked(s) && (a.GiveUp? || a.Store?)
    decreases if s.boot.Replaying? then s.boot.left else {}
  {
    var a := NextStep(allowed, k, s.entries[k]);
    if Enabled(allowed, s, a) {
      wait := [];
    } else {
      var c :| c in s.boot.left;
      var t := Apply(allowed, s, Replay(c));
      var rest := EntryNeverStuck(allowed, t, k);
      wait := [Replay(c)] + rest;
      assert wait[1..] == rest;
    }
  }

  /** The collector mixes units: until the year 3871 it drops exactly the answers that were never
      stamped, which are the ones given up on, and keeps every real one. */
  lemma CollectorDropsGiveUps(s: State, now: int, c: Code)
    requires c in s.memory && 0 <= now <= COLLECT_AFTER && !ReplayLocked(s)
    requires s.memory[c].timestamp == ZERO_TIME || 0 <= s.memory[c].timestamp <= now
    ensures c in Apply(0, s, Collect(now)).memory <==> s.memory[c].timestamp != ZERO_TIME
  {
  }
}
