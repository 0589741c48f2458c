/** The reconcile loop and what feeds it: live evidence, replays, timeouts and the
    stale sweep, all through one door, while the loop takes one key at a time. */
module ReconcileLoops {
  import opened Common
  import opened Engine

  const RECON_BACKOFF_S := 2.0
  const RECON_BACKOFF_CAP_S := 60.0
  const RECON_MAX_RETRIES := 5

  datatype Conclusion = Returned | Divergence | BrokerTimeout | OtherError

  /** Where the loop is; a key in any phase but Waiting is in flight. */
  datatype Phase =
    | Waiting
    | Loading(key: string)
    | Reconciling(key: string)
    | Sleeping(key: string, delay: real)
    | Halted(key: string)

  datatype Loop = Loop(
    queue: seq<string>, pending: set<string>, phase: Phase, attempts: map<string, nat>, backoff: map<string, real>)

  datatype Move =
    | Trigger(key: string)
    | Get
    | Loaded(terminal: bool)
    | Concluded(conclusion: Conclusion)
    | Wake

  const IDLE := Loop([], {}, Waiting, map[], map[])

  function Next(s: Loop, move: Move): Loop {
    match move
    case Trigger(key) =>
      if key in s.pending then s else s.(pending := s.pending + {key}, queue := s.queue + [key])
    case Get =>
      if !s.phase.Waiting? || s.queue == [] then s else s.(queue := s.queue[1..], phase := Loading(s.queue[0]))
    case Loaded(terminal) =>
      if !s.phase.Loading? then s
      else
        var key := s.phase.key;
        if !terminal then s.(phase := Reconciling(key))
        else s.(pending := s.pending - {key}, attempts := s.attempts - {key}, backoff := s.backoff - {key},
            phase := Waiting)
    case Concluded(conclusion) =>
      if !s.phase.Reconciling? then s
      else
        var key := s.phase.key;
        (match conclusion
         case Returned =>
           s.(pending := s.pending - {key}, attempts := s.attempts - {key}, backoff := s.backoff - {key},
             phase := Waiting)
         case Divergence => s.(phase := Halted(key))
         case BrokerTimeout =>
           var delay := if key in s.backoff then s.backoff[key] else RECON_BACKOFF_S;
           s.(backoff := s.backoff[key := Min(delay * 2.0, RECON_BACKOFF_CAP_S)], phase := Sleeping(key, delay))
         case OtherError =>
           var n := (if key in s.attempts then s.attempts[key] else 0) + 1;
           if n > RECON_MAX_RETRIES then s.(phase := Halted(key))
           else s.(attempts := s.attempts[key := n], phase := Sleeping(key, RECON_BACKOFF_S)))
    case Wake =>
      if !s.phase.Sleeping? then s else s.(queue := s.queue + [s.phase.key], phase := Waiting)
  }

  function Run(s: Loop, moves: seq<Move>): Loop {
    if moves == [] then s else Next(Run(s, moves[..|moves| - 1]), moves[|moves| - 1])
  }

  // ---------------------------------------------------------------- what every run keeps

  function InFlight(phase: Phase): set<string> {
    if phase.Waiting? then {} else {phase.key}
  }

  predicate Bounded(delay: real) {
    2.0 <= delay <= 60.0
  }

  predicate NoRepeats(queue: seq<string>) {
    forall i, j | 0 <= i < j < |queue| :: queue[i] != queue[j]
  }

  /** Pending is the queue and the key in flight, no key twice. */
  ghost predicate Owed(s: Loop) {
    && NoRepeats(s.queue) && (forall key <- s.queue :: key !in InFlight(s.phase))
    && forall key: string :: key in s.pending <==> key in s.queue || key in InFlight(s.phase)
  }

  ghost predicate Counted(s: Loop) {
    && (forall key <- s.backoff :: key in s.pending && Bounded(s.backoff[key]))
    && (forall key <- s.attempts :: key in s.pending && 1 <= s.attempts[key] <= 5)
    && (s.phase.Sleeping? ==> Bounded(s.phase.delay))
  }

  ghost predicate Tidy(s: Loop) {
    Owed(s) && Counted(s)
  }

  lemma GetIsOwed(s: Loop)
    requires Owed(s)
    ensures Owed(Next(s, Get))
  {
    if s.phase.Waiting? && s.queue != [] {
      var rest := s.queue[1..];
      forall key: string ensures key in s.queue <==> key == s.queue[0] || key in rest {
        if key in s.queue && key != s.queue[0] {
          var i :| 0 <= i < |s.queue| && s.queue[i] == key;
          assert rest[i - 1] == key;
        }
      }
      forall key <- rest ensures key != s.queue[0] {
        var i :| 0 <= i < |rest| && rest[i] == key;
        assert s.queue[i + 1] == key;
      }
    }
  }

  lemma StepIsOwed(s: Loop, move: Move)
    requires Owed(s)
    ensures Owed(Next(s, move))
  {
    match move {
      case Get => GetIsOwed(s);
      case Trigger(key) =>
        if key !in s.pending { JoinsQueue(s.queue, key); }
        hide NoRepeats;
      case Wake =>
        if s.phase.Sleeping? { JoinsQueue(s.queue, s.phase.key); }
        hide NoRepeats;
      case _ => hide NoRepeats;
    }
  }

  lemma JoinsQueue(queue: seq<string>, key: string)
    requires NoRepeats(queue) && key !in queue
    ensures NoRepeats(queue + [key])
    ensures forall k: string :: k in queue + [key] <==> k in queue || k == key
  {
  }

  lemma StepIsTidy(s: Loop, move: Move)
    requires Tidy(s)
    ensures Tidy(Next(s, move))
  {
    hide Owed, Counted, Next;
    StepIsOwed(s, move);
    StepIsCounted(s, move);
  }

  lemma StepIsCounted(s: Loop, move: Move)
    requires Owed(s) && Counted(s)
    ensures Counted(Next(s, move))
  {
    hide NoRepeats;
  }

  lemma {:induction false} RunsAreTidy(moves: seq<Move>)
    ensures Tidy(Run(IDLE, moves))
  {
    if moves != [] {
      RunsAreTidy(moves[..|moves| - 1]);
      StepIsTidy(Run(IDLE, moves[..|moves| - 1]), moves[|moves| - 1]);
    }
  }

  /** The step that ends what a key was owed: its order was found finished, or
      its reconciliation returned. */
  predicate Concludes(s: Loop, move: Move, key: string) {
    || (s.phase == Loading(key) && move == Loaded(true))
    || (s.phase == Reconciling(key) && move == Concluded(Returned))
  }

  /** A key leaves the pending set in no other way. */
  lemma LeavesOnlyWhenConcluded(s: Loop, move: Move, key: string)
    requires Tidy(s)
    ensures key in s.pending && key !in Next(s, move).pending <==> Concludes(s, move, key)
  {
  }

  // ---------------------------------------------------------------- backoff and retries, from the history

  /** Timeouts of a key since it was last concluded. */
  function Timeouts(moves: seq<Move>, key: string): nat {
    if moves == [] then 0
    else
      var before, last := moves[..|moves| - 1], moves[|moves| - 1];
      var s := Run(IDLE, before);
      if Concludes(s, last, key) then 0
      else Timeouts(before, key) + if s.phase == Reconciling(key) && last == Concluded(BrokerTimeout) then 1 else 0
  }

  /** Other errors of a key since it was last concluded. */
  function Errors(moves: seq<Move>, key: string): nat {
    if moves == [] then 0
    else
      var before, last := moves[..|moves| - 1], moves[|moves| - 1];
      var s := Run(IDLE, before);
      if Concludes(s, last, key) then 0
      else Errors(before, key) + if s.phase == Reconciling(key) && last == Concluded(OtherError) then 1 else 0
  }

  /** The delay after so many timeouts: doubling from two seconds to a minute. */
  function Doubled(timeouts: nat): real {
    if timeouts == 0 then RECON_BACKOFF_S else Min(Doubled(timeouts - 1) * 2.0, RECON_BACKOFF_CAP_S)
  }

  /** The counters of a key after so many timeouts and errors. */
  predicate Tells(s: Loop, key: string, timeouts: nat, errors: nat) {
    && (key in s.backoff <==> timeouts > 0) && (timeouts > 0 ==> s.backoff[key] == Doubled(timeouts))
    && (s.phase != Halted(key) ==> errors <= RECON_MAX_RETRIES)
    && (key in s.attempts <==> errors > 0)
    && (errors > 0 ==> s.attempts[key] == if errors <= RECON_MAX_RETRIES then errors else RECON_MAX_RETRIES)
  }

  lemma StepTells(s: Loop, move: Move, key: string, t: nat, e: nat)
    requires Tells(s, key, t, e)
    ensures
      var s' := Next(s, move);
      if Concludes(s, move, key) then Tells(s', key, 0, 0)
      else Tells(s', key,
                 t + if s.phase == Reconciling(key) && move == Concluded(BrokerTimeout) then 1 else 0,
                 e + if s.phase == Reconciling(key) && move == Concluded(OtherError) then 1 else 0)
  {
  }

  /** Counters are exactly the history since the key was last concluded: each
      timeout doubles the key's delay up to the cap, a halt for errors comes with
      the sixth and never from timeouts, and conclusion wipes both. */
  lemma {:induction false} CountersAreHistory(moves: seq<Move>, key: string)
    ensures Tells(Run(IDLE, moves), key, Timeouts(moves, key), Errors(moves, key))
  {
    hide Tells, Next;
    if moves == [] {
      NothingTold(key);
    } else {
      var before, last := moves[..|moves| - 1], moves[|moves| - 1];
      CountersAreHistory(before, key);
      StepTells(Run(IDLE, before), last, key, Timeouts(before, key), Errors(before, key));
    }
  }

  lemma NothingTold(key: string)
    ensures Tells(IDLE, key, 0, 0)
  {
  }

  lemma {:induction false} DoublingIsBounded(timeouts: nat)
    ensures 2.0 <= Doubled(timeouts) <= 60.0
    ensures timeouts >= 5 ==> Doubled(timeouts) == RECON_BACKOFF_CAP_S
  {
    if timeouts > 5 {
      DoublingIsBounded(timeouts - 1);
    } else {
      assert Doubled(1) == 4.0 && Doubled(2) == 8.0;
      assert Doubled(3) == 16.0 && Doubled(4) == 32.0;
      assert Doubled(5) == 60.0;
    }
  }

  // ---------------------------------------------------------------- the loop and the sweep

  class ReconcileLoop {
    const engine: OrderEngine
    var attempts: map<string, nat>
    var timeoutBackoff: map<string, real>

    constructor (engine: OrderEngine)
      ensures this.engine == engine && attempts == map[] && timeoutBackoff == map[]
    {
      this.engine, attempts, timeoutBackoff := engine, map[], map[];
    }

    function State(phase: Phase): Loop
      reads this, engine
    {
      Loop(engine.needsReconcile, engine.pending, phase, attempts, timeoutBackoff)
    }

    /** Whatever triggers arrive while the loop is waiting for something else. */
    method Meanwhile(triggers: seq<string>, ghost phase: Phase) returns (ghost moves: seq<Move>)
      modifies engine
      ensures State(phase) == Run(old(State(phase)), moves)
      ensures moves == Triggers(triggers)
    {
      hide Next, Run;
      moves := [];
      ghost var s := State(phase);
      NothingTriggered(s);
      for i := 0 to |triggers|
        invariant State(phase) == Run(s, moves) && moves == Triggers(triggers[..i])
      {
        TriggerIs(State(phase), triggers[i]);
        Do(s, moves, Trigger(triggers[i]));
        TriggersGoOn(triggers, i);
        var _ := engine.EnqueueReconcile(triggers[i]);
        moves := moves + [Trigger(triggers[i])];
      }
      assert triggers[..|triggers|] == triggers;
    }

    /** One pass of the loop: take a key, skip it if its order is finished, or
        reconcile it and act on how that ended.  False is a halt.  Triggers may
        arrive while the order is loaded, while it is reconciled and while the
        loop sleeps. */
    method Iterate(terminal: bool, conclusion: Conclusion, arriving: (seq<string>, seq<string>, seq<string>))
      returns (goesOn: bool, ghost moves: seq<Move>)
      requires engine.needsReconcile != []
      modifies this, engine
      ensures goesOn ==> State(Waiting) == Run(old(State(Waiting)), moves)
      ensures !goesOn ==> State(Halted(old(engine.needsReconcile[0]))) == Run(old(State(Waiting)), moves)
      ensures goesOn <==> terminal || conclusion.Returned? || conclusion.BrokerTimeout?
                          || (conclusion.OtherError?
                              && Tries(old(attempts), old(engine.needsReconcile[0])) < RECON_MAX_RETRIES)
      ensures moves == [Get] + Triggers(arriving.0) + [Loaded(terminal)]
                       + (if terminal then []
                          else Triggers(arriving.1) + [Concluded(conclusion)]
                               + (if goesOn && !conclusion.Returned? then Triggers(arriving.2) + [Wake] else []))
    {
      hide Next, Run, Triggers;
      ghost var s := State(Waiting);
      var key := engine.needsReconcile[0];
      engine.needsReconcile := engine.needsReconcile[1..];
      GetIs(s);
      Do(s, [], Get);
      Nothing(s);
      moves := [] + [Get];
      var early := Meanwhile(arriving.0, Loading(key));
      RunConcat(s, moves, early);
      moves := moves + early;
      LoadedIs(State(Loading(key)), terminal);
      Do(s, moves, Loaded(terminal));
      moves := moves + [Loaded(terminal)];
      if terminal {
        Forget(key);
        return true, moves;
      }
      var during := Meanwhile(arriving.1, Reconciling(key));
      RunConcat(s, moves, during);
      moves := moves + during;
      Do(s, moves, Concluded(conclusion));
      moves := moves + [Concluded(conclusion)];
      var slept, delay := Act(key, conclusion);
      if !slept {
        return !conclusion.Divergence? && !conclusion.OtherError?, moves;
      }
      var late := Meanwhile(arriving.2, Sleeping(key, delay));
      RunConcat(s, moves, late);
      moves := moves + late;
      WakeIs(State(Sleeping(key, delay)));
      Do(s, moves, Wake);
      moves := moves + [Wake];
      engine.needsReconcile := engine.needsReconcile + [key];  // stays pending
      return true, moves;
    }

    method Forget(key: string)
      modifies this, engine`pending
      ensures engine.pending == old(engine.pending) - {key}
      ensures attempts == old(attempts) - {key} && timeoutBackoff == old(timeoutBackoff) - {key}
    {
      attempts, timeoutBackoff := attempts - {key}, timeoutBackoff - {key};
      engine.pending := engine.pending - {key};
    }

    /** What each ending of a reconciliation leads to; `slept` is a retry to come. */
    method Act(key: string, conclusion: Conclusion) returns (slept: bool, delay: real)
      modifies this, engine`pending
      ensures Next(old(State(Reconciling(key))), Concluded(conclusion)) ==
                State(if slept then Sleeping(key, delay) else if conclusion == Returned then Waiting else Halted(key))
      ensures slept <==>
                conclusion.BrokerTimeout? || (conclusion.OtherError? && Tries(old(attempts), key) < RECON_MAX_RETRIES)
    {
      slept, delay := false, RECON_BACKOFF_S;
      match conclusion {
        case Returned => Forget(key);
        case Divergence =>
        case BrokerTimeout =>
          delay := if key in timeoutBackoff then timeoutBackoff[key] else RECON_BACKOFF_S;
          timeoutBackoff := timeoutBackoff[key := Min(delay * 2.0, RECON_BACKOFF_CAP_S)];
          slept := true;
        case OtherError =>
          var n := Tries(attempts, key) + 1;
          if n <= RECON_MAX_RETRIES {
            attempts := attempts[key := n];
            slept := true;
          }
      }
    }

    /** Queue every stale order that is not already owed a reconciliation. */
    method SweepStaleOrders(stale: seq<string>, ghost phase: Phase) returns (keys: seq<string>, ghost moves: seq<Move>)
      modifies engine
      ensures State(phase) == Run(old(State(phase)), moves)
      ensures forall key :: key in keys <==> key in stale && key !in old(engine.pending)
      ensures NoRepeats(keys) && engine.needsReconcile == old(engine.needsReconcile) + keys
      ensures engine.pending == old(engine.pending) + (set key | key in stale)
    {
      hide Next, Run, Unowed, Members, NoRepeats;
      keys, moves := [], [];
      ghost var s, owed := State(phase), engine.pending;
      NothingUnowed(owed);
      Nothing(s);
      for i := 0 to |stale|
        invariant State(phase) == Run(s, moves)
        invariant keys == Unowed(stale[..i], owed)
        invariant engine.needsReconcile == old(engine.needsReconcile) + keys
        invariant engine.pending == owed + Members(keys)
      {
        OneMoreStale(stale, i, owed);
        TriggerIs(State(phase), stale[i]);
        Do(s, moves, Trigger(stale[i]));
        moves := moves + [Trigger(stale[i])];
        var queued := engine.EnqueueReconcile(stale[i]);
        if queued {
          keys := keys + [stale[i]];
        }
      }
      assert stale[..|stale|] == stale;
      UnowedAre(stale, owed);
    }
  }

  function Members(keys: seq<string>): set<string> {
    set key | key in keys
  }

  /** The keys no reconciliation is owed for yet, each once. */
  function Unowed(stale: seq<string>, owed: set<string>): seq<string> {
    if stale == [] then []
    else
      var before, last := Unowed(stale[..|stale| - 1], owed), stale[|stale| - 1];
      if last in owed || last in before then before else before + [last]
  }

  lemma NothingUnowed(owed: set<string>)
    ensures Unowed([], owed) == [] && Members([]) == {}
  {
  }

  lemma {:induction false} UnowedAre(stale: seq<string>, owed: set<string>)
    ensures forall key :: key in Unowed(stale, owed) <==> key in stale && key !in owed
    ensures NoRepeats(Unowed(stale, owed))
    ensures owed + Members(Unowed(stale, owed)) == owed + (set key | key in stale)
  {
    if stale != [] {
      var rest, last := stale[..|stale| - 1], stale[|stale| - 1];
      UnowedAre(rest, owed);
      assert stale == rest + [last];
    }
  }

  lemma OneMoreStale(stale: seq<string>, i: nat, owed: set<string>)
    requires i < |stale|
    ensures
      var before, key := Unowed(stale[..i], owed), stale[i];
      var isOwed := key in owed + Members(before);
      && Unowed(stale[..i + 1], owed) == (if isOwed then before else before + [key])
      && (!isOwed ==> Members(before + [key]) == Members(before) + {key})
  {
    assert stale[..i + 1][..i] == stale[..i];
  }

  function Triggers(keys: seq<string>): seq<Move> {
    if keys == [] then [] else Triggers(keys[..|keys| - 1]) + [Trigger(keys[|keys| - 1])]
  }

  lemma NothingTriggered(s: Loop)
    ensures Run(s, []) == s && Triggers([]) == []
  {
  }

  lemma TriggersGoOn(keys: seq<string>, i: nat)
    requires i < |keys|
    ensures Triggers(keys[..i + 1]) == Triggers(keys[..i]) + [Trigger(keys[i])]
  {
    assert keys[..i + 1][..i] == keys[..i];
  }

  lemma GetIs(s: Loop)
    requires s.phase == Waiting && s.queue != []
    ensures Next(s, Get) == s.(queue := s.queue[1..], phase := Loading(s.queue[0]))
  {
  }

  lemma LoadedIs(s: Loop, terminal: bool)
    requires s.phase.Loading?
    ensures
      var key := s.phase.key;
      Next(s, Loaded(terminal)) ==
        if terminal then s.(pending := s.pending - {key}, attempts := s.attempts - {key},
          backoff := s.backoff - {key}, phase := Waiting)
        else s.(phase := Reconciling(key))
  {
  }

  lemma WakeIs(s: Loop)
    requires s.phase.Sleeping?
    ensures Next(s, Wake) == s.(queue := s.queue + [s.phase.key], phase := Waiting)
  {
  }

  lemma TriggerIs(s: Loop, key: string)
    ensures Next(s, Trigger(key)) ==
              if key in s.pending then s else s.(pending := s.pending + {key}, queue := s.queue + [key])
  {
  }

  lemma Nothing(s: Loop)
    ensures Run(s, []) == s
  {
  }

  lemma {:induction false} RunConcat(s: Loop, a: seq<Move>, b: seq<Move>)
    ensures Run(s, a + b) == Run(Run(s, a), b)
  {
    hide Next;
    if b == [] {
      assert a + b == a;
    } else {
      RunConcat(s, a, b[..|b| - 1]);
      assert (a + b)[..|a + b| - 1] == a + b[..|b| - 1];
    }
  }

  function Tries(attempts: map<string, nat>, key: string): nat {
    if key in attempts then attempts[key] else 0
  }

  lemma Do(s: Loop, moves: seq<Move>, move: Move)
    ensures Run(s, moves + [move]) == Next(Run(s, moves), move)
  {
    assert (moves + [move])[..|moves|] == moves;
  }
}
