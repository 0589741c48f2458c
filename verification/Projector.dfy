/** Copying the journal into a table: insert a batch, then move the cursor.

    The table and the cursor file survive a crash, the process does not; an
    insert may fail with or without having been applied, and a commit may fail.
    The process is a transition system here and a class below it, each turn of
    the class being a run of the system. */
module Projecting {
  import opened Common

  /** A journal record made into a row; the log's n-th row has sequence n. */
  datatype Row = Row(seqNo: nat, body: string)

  datatype InsertOutcome = Inserted | LostAfter | LostBefore

  /** Whether the insert has gone through and the cursor is still to move. */
  datatype Phase = Reading | Sent

  datatype Process = Process(cursor: nat, next: nat, batch: seq<Row>, highest: nat, phase: Phase)

  datatype World = World(log: seq<Row>, table: map<nat, Row>, cursorFile: nat, process: Option<Process>)

  datatype Move =
    | Append(body: string)
    | Boot(readable: bool)
    | Read
    | Insert(inserted: InsertOutcome)
    | Commit(committed: bool)
    | Crash

  const BATCH_SIZE := 500

  /** insert ... on conflict (seq) do nothing */
  function Upserted(table: map<nat, Row>, rows: seq<Row>): map<nat, Row> {
    if rows == [] then table
    else
      var before, r := Upserted(table, rows[..|rows| - 1]), rows[|rows| - 1];
      if r.seqNo in before then before else before[r.seqNo := r]
  }

  function Next(w: World, move: Move): World {
    match move
    case Append(body) => w.(log := w.log + [Row(|w.log| + 1, body)])
    case Boot(readable) =>
      // A cursor that cannot be read is one that is not there.
      var seen := if readable then w.cursorFile else 0;
      w.(process := Some(Process(seen, seen + 1, [], 0, Reading)))
    case Crash => w.(process := None)
    case Read =>
      if w.process.None? || w.process.value.phase == Sent || w.process.value.next > |w.log|
        || w.process.value.next == 0 then w
      else
        var p := w.process.value;
        var r := w.log[p.next - 1];
        w.(process := Some(p.(batch := p.batch + [r], highest := r.seqNo, next := p.next + 1)))
    case Insert(outcome) =>
      if w.process.None? || w.process.value.phase == Sent || w.process.value.batch == [] then w
      else
        var p := w.process.value;
        w.(table := if outcome == LostBefore then w.table else Upserted(w.table, p.batch),
           process := Some(p.(phase := if outcome == Inserted then Sent else Reading)))
    case Commit(committed) =>
      if w.process.None? || w.process.value.phase == Reading then w
      else
        var p := w.process.value;
        if !committed then w.(process := Some(p.(phase := Reading)))
        else
          var moves := p.highest >= p.cursor;
          w.(cursorFile := if moves then p.highest else w.cursorFile,
             process := Some(p.(cursor := if moves then p.highest else p.cursor, batch := [], phase := Reading)))
  }

  const FRESH := World([], map[], 0, None)

  function Run(w: World, moves: seq<Move>): World {
    if moves == [] then w else Next(Run(w, moves[..|moves| - 1]), moves[|moves| - 1])
  }

  // ---------------------------------------------------------------- what every run keeps

  predicate Numbered(log: seq<Row>) {
    forall i | 0 <= i < |log| :: log[i].seqNo == i + 1
  }

  /** The table is the first `n` records of the log, each once. */
  ghost predicate HoldsFirst(table: map<nat, Row>, log: seq<Row>, n: nat) {
    && n <= |log|
    && (forall s: nat :: s in table <==> 1 <= s <= n)
    && (forall s: nat | 1 <= s <= n :: table[s] == log[s - 1])
  }

  /** A process has read on without a gap from something the table holds. */
  predicate Contiguous(p: Process, log: seq<Row>, n: nat) {
    && 1 <= p.next <= |log| + 1 && |p.batch| < p.next
    && p.batch == log[p.next - 1 - |p.batch|..p.next - 1]
    && p.next - 1 - |p.batch| <= n && p.cursor <= n
    && (p.batch != [] ==> p.highest == p.next - 1)
    && (p.phase == Sent ==> p.batch != [] && p.highest <= n)
  }

  ghost predicate InStep(w: World, n: nat) {
    && Numbered(w.log) && HoldsFirst(w.table, w.log, n) && w.cursorFile <= n
    && (w.process.Some? ==> Contiguous(w.process.value, w.log, n))
  }

  /** A contiguous batch that starts no later than the table ends extends it. */
  lemma {:induction false} BatchExtends(table: map<nat, Row>, log: seq<Row>, n: nat, from: nat, to: nat)
    requires Numbered(log) && HoldsFirst(table, log, n) && from <= to <= |log| && from <= n
    ensures HoldsFirst(Upserted(table, log[from..to]), log, if to > n then to else n)
  {
    hide HoldsFirst, Numbered;
    var rows := log[from..to];
    if rows != [] {
      BatchExtends(table, log, n, from, to - 1);
      assert rows[..|rows| - 1] == log[from..to - 1];
      assert rows[|rows| - 1] == log[to - 1];
      NextIsNumbered(log, to);
      OneMoreHeld(Upserted(table, log[from..to - 1]), log, if to - 1 > n then to - 1 else n, to);
    }
  }

  /** The next record, or one that is there already. */
  lemma OneMoreHeld(table: map<nat, Row>, log: seq<Row>, n: nat, to: nat)
    requires HoldsFirst(table, log, n) && 1 <= to <= |log| && to <= n + 1 && log[to - 1].seqNo == to
    ensures HoldsFirst(if to in table then table else table[to := log[to - 1]], log, if to > n then to else n)
  {
  }

  lemma AppendStays(w: World, body: string, n: nat)
    requires InStep(w, n)
    ensures InStep(Next(w, Append(body)), n)
  {
    var log := w.log + [Row(|w.log| + 1, body)];
    if w.process.Some? {
      var p := w.process.value;
      assert log[p.next - 1 - |p.batch|..p.next - 1] == w.log[p.next - 1 - |p.batch|..p.next - 1];
    }
  }

  lemma ReadStays(w: World, n: nat)
    requires InStep(w, n)
    ensures InStep(Next(w, Read), n)
  {
    hide HoldsFirst, Numbered;
    if w.process.Some? && w.process.value.phase == Reading && w.process.value.next <= |w.log| {
      NextIsNumbered(w.log, w.process.value.next);
      ReadOnIsContiguous(w.process.value, w.log, n);
    }
  }

  lemma NextIsNumbered(log: seq<Row>, next: nat)
    requires Numbered(log) && 1 <= next <= |log|
    ensures log[next - 1].seqNo == next
  {
  }

  lemma ReadOnIsContiguous(p: Process, log: seq<Row>, n: nat)
    requires Contiguous(p, log, n) && p.phase == Reading && p.next <= |log| && log[p.next - 1].seqNo == p.next
    ensures Contiguous(p.(batch := p.batch + [log[p.next - 1]], highest := p.next, next := p.next + 1), log, n)
  {
    assert log[p.next - 1 - |p.batch|..p.next] == p.batch + [log[p.next - 1]];
  }

  lemma CommitStays(w: World, committed: bool, n: nat)
    requires InStep(w, n)
    ensures InStep(Next(w, Commit(committed)), n)
  {
    hide HoldsFirst, Numbered;
  }

  lemma InsertStays(w: World, outcome: InsertOutcome, n: nat) returns (m: nat)
    requires InStep(w, n)
    ensures n <= m && InStep(Next(w, Insert(outcome)), m)
  {
    m := n;
    hide HoldsFirst, Numbered, Upserted;
    if w.process.Some? && w.process.value.phase == Reading && w.process.value.batch != [] && outcome != LostBefore {
      var p := w.process.value;
      BatchExtends(w.table, w.log, n, p.next - 1 - |p.batch|, p.next - 1);
      m := if p.next - 1 > n then p.next - 1 else n;
    }
  }

  lemma StepStays(w: World, move: Move, n: nat) returns (m: nat)
    requires InStep(w, n)
    ensures n <= m && InStep(Next(w, move), m)
  {
    m := n;
    match move {
      case Append(body) => AppendStays(w, body, n);
      case Boot(_) =>
      case Crash =>
      case Read => ReadStays(w, n);
      case Insert(outcome) => m := InsertStays(w, outcome, n);
      case Commit(committed) => CommitStays(w, committed, n);
    }
  }

  /** After any run, with crashes between any two steps, failed inserts and
      failed commits: the table is a prefix of the log, each record once, and the
      committed cursor is not past it. */
  lemma {:induction false} TableIsPrefix(moves: seq<Move>) returns (n: nat)
    ensures InStep(Run(FRESH, moves), n)
    ensures var w := Run(FRESH, moves); HoldsFirst(w.table, w.log, n) && w.cursorFile <= n
  {
    hide Next, HoldsFirst;
    if moves == [] {
      n := 0;
      NothingYet();
    } else {
      var m := TableIsPrefix(moves[..|moves| - 1]);
      n := StepStays(Run(FRESH, moves[..|moves| - 1]), moves[|moves| - 1], m);
    }
  }

  lemma NothingYet()
    ensures InStep(FRESH, 0)
  {
  }

  /** A row once in the table is never changed or taken out. */
  lemma RowsStand(w: World, move: Move, n: nat, s: nat)
    requires InStep(w, n) && s in w.table
    ensures s in Next(w, move).table && Next(w, move).table[s] == w.table[s]
  {
    var m := StepStays(w, move, n);
    LogStands(w, move, s);
  }

  lemma LogStands(w: World, move: Move, s: nat)
    requires 1 <= s <= |w.log|
    ensures s <= |Next(w, move).log| && Next(w, move).log[s - 1] == w.log[s - 1]
  {
  }

  // ---------------------------------------------------------------- nothing is skipped

  function Reads(count: nat): seq<Move> {
    if count == 0 then [] else Reads(count - 1) + [Read]
  }

  /** A process that has gathered the records between two sequences. */
  predicate Gathered(w: World, cursor: nat, from: nat, to: nat) {
    && from <= to <= |w.log| && w.process.Some?
    && var p := w.process.value;
       && p.cursor == cursor && p.phase == Reading && p.next == to + 1 && p.batch == w.log[from..to]
       && (from < to ==> p.highest == to)
  }

  lemma ReadGathers(w: World, cursor: nat, from: nat, to: nat)
    requires Numbered(w.log) && Gathered(w, cursor, from, to) && to < |w.log|
    ensures var w' := Next(w, Read); w' == w.(process := w'.process) && Gathered(w', cursor, from, to + 1)
  {
    assert w.log[from..to + 1] == w.log[from..to] + [w.log[to]];
  }

  lemma {:induction false} ReadsGather(w: World, cursor: nat, from: nat, count: nat)
    requires Numbered(w.log) && Gathered(w, cursor, from, from) && from + count <= |w.log|
    ensures var w' := Run(w, Reads(count)); w' == w.(process := w'.process) && Gathered(w', cursor, from, from + count)
  {
    hide Next, Numbered, Gathered;
    if count > 0 {
      ReadsGather(w, cursor, from, count - 1);
      assert Reads(count)[..|Reads(count)| - 1] == Reads(count - 1);
      ReadGathers(Run(w, Reads(count - 1)), cursor, from, from + count - 1);
    }
  }

  lemma FlushLands(w: World, n: nat, cursor: nat, to: nat)
    requires Numbered(w.log) && HoldsFirst(w.table, w.log, n) && Gathered(w, cursor, cursor, to) && cursor <= n <= to
    ensures
      var done := Next(Next(w, Insert(Inserted)), Commit(true));
      && HoldsFirst(done.table, w.log, to) && done.log == w.log
      && done.cursorFile == if cursor < to then to else w.cursorFile
  {
    hide HoldsFirst, Numbered, Upserted;
    if cursor < to { BatchExtends(w.table, w.log, n, cursor, to); }
  }

  lemma BootGathers(w: World, n: nat, readable: bool)
    requires InStep(w, n)
    ensures
      var booted := Next(w, Boot(readable));
      && booted == w.(process := booted.process) && booted.process.Some?
      && var cursor := booted.process.value.cursor;
         && cursor <= n <= |w.log| && Gathered(booted, cursor, cursor, cursor)
         && (cursor == |w.log| ==> cursor == w.cursorFile)
    ensures Numbered(w.log) && HoldsFirst(w.table, w.log, n)
  {
    hide HoldsFirst, Numbered;
    Bounded(w.table, w.log, n);
  }

  /** Whatever has happened, starting again, reading to the end and one flush
      that goes through leave the whole log in the table and the cursor at its
      end: no crash or failure ever makes the process pass over a record. */
  lemma RestartCatchesUp(w: World, n: nat, readable: bool)
    requires InStep(w, n)
    ensures
      var booted := Next(w, Boot(readable));
      var read := Run(booted, Reads(|w.log| - booted.process.value.cursor));
      var done := Next(Next(read, Insert(Inserted)), Commit(true));
      HoldsFirst(done.table, w.log, |w.log|) && done.log == w.log && done.cursorFile == |w.log|
  {
    hide HoldsFirst, Run, Next, Gathered, Numbered, InStep;
    var booted := Next(w, Boot(readable));
    BootGathers(w, n, readable);
    var cursor := booted.process.value.cursor;
    ReadsGather(booted, cursor, cursor, |w.log| - cursor);
    FlushLands(Run(booted, Reads(|w.log| - cursor)), n, cursor, |w.log|);
  }

  lemma Bounded(table: map<nat, Row>, log: seq<Row>, n: nat)
    requires HoldsFirst(table, log, n)
    ensures n <= |log|
  {
  }

  // ---------------------------------------------------------------- the process

  /** The projector's loop over what outlives it: the log, the table, and its cursor file. */
  class Projector {
    var log: seq<Row>
    var table: map<nat, Row>
    var cursorFile: nat
    var cursor: nat
    var next: nat
    var batch: seq<Row>
    var highest: nat
    /** Armed by a batch's first row, disarmed when the batch has gone. */
    var lingering: bool

    function State(): World
      reads this
    {
      World(log, table, cursorFile, Some(Process(cursor, next, batch, highest, Reading)))
    }

    /** Load the cursor and open the log after it. */
    constructor Resume(ghost w: World, log: seq<Row>, table: map<nat, Row>, cursorFile: nat, readable: bool)
      requires w.log == log && w.table == table && w.cursorFile == cursorFile
      ensures State() == Next(w, Boot(readable)) && (cursorFile <= |log| ==> Valid())
    {
      this.log, this.table, this.cursorFile := log, table, cursorFile;
      var seen := if readable then cursorFile else 0;
      cursor, next := seen, seen + 1;
      batch, highest, lingering := [], 0, false;
    }

    /** Move the cursor, written by rename; a lower sequence is a no-op. */
    method CommitCursor(seqNo: nat, works: bool) returns (ok: bool)
      modifies this`cursor, this`cursorFile
      ensures ok == (seqNo < old(cursor) || works)
      ensures cursor == (if ok && seqNo >= old(cursor) then seqNo else old(cursor))
      ensures cursorFile == (if ok && seqNo >= old(cursor) then seqNo else old(cursorFile))
    {
      if seqNo < cursor {
        return true;
      }
      if !works {
        return false;
      }
      cursorFile := seqNo;
      cursor := seqNo;
      return true;
    }

    /** Send the batch, then commit the cursor, in that order. */
    method Flush(outcome: InsertOutcome, works: bool) returns (ok: bool)
      modifies this`table, this`cursor, this`cursorFile
      ensures batch == [] ==> ok && State() == old(State())
      ensures batch != [] ==> ok == (outcome == Inserted && (works || highest < old(cursor)))
      ensures old(State()).(table := table, cursorFile := cursorFile,
                            process := Some(old(State()).process.value.(cursor := cursor))) == State()
      ensures batch != [] && ok ==>
                Next(Next(old(State()), Insert(outcome)), Commit(true)) == Cleared(State())
      ensures batch != [] && !ok ==>
                State() == Next(Next(old(State()), Insert(outcome)), Commit(false))
    {
      hide Upserted;
      if |batch| == 0 {
        return true;
      }
      if outcome != LostBefore {
        table := Upserted(table, batch);
      }
      if outcome != Inserted {
        return false;
      }
      ok := CommitCursor(highest, works);
    }

    predicate Valid()
      reads this
    {
      1 <= next <= |log| + 1 && (lingering <==> batch != [])
    }

    /** Once around the loop: read a record if there is one, and flush a full
        batch, or one that has waited long enough with nothing more to read. */
    method Turn(due: bool, outcome: InsertOutcome, works: bool) returns (ghost moves: seq<Move>)
      requires Valid()
      modifies this
      ensures Valid() && log == old(log) && State() == Run(old(State()), moves)
      ensures next == if old(next) <= |log| then old(next) + 1 else old(next)
      ensures |batch| < 500 || outcome != Inserted || !works || next == old(next)
      ensures old(next) > |log| && (old(batch) == [] || !due) ==> moves == [] && State() == old(State())
      ensures old(next) > |log| && old(batch) != [] && due ==>
                Sends(moves, outcome) && (outcome == Inserted && works ==> batch == [])
      ensures old(next) <= |log| ==>
                moves != [] && moves[0] == Read
                && if |old(batch)| + 1 < 500 then |moves| == 1 else Sends(moves[1..], outcome)
    {
      hide Upserted, Next;
      ghost var w := State();
      if next > |log| {
        moves := [];
        if |batch| > 0 && lingering && due {
          moves := Send(outcome, works);
        }
        return;
      }
      var row := log[next - 1];
      batch := batch + [row];
      highest := row.seqNo;
      next := next + 1;
      if !lingering {
        lingering := true;
      }
      ReadIs(w);
      RunOne(w, Read);
      moves := [Read];
      if |batch| >= BATCH_SIZE {
        var sent := Send(outcome, works);
        RunConcat(w, [Read], sent);
        moves := [Read] + sent;
      }
    }

    /** Flush, and forget the batch if it went. */
    method Send(outcome: InsertOutcome, works: bool) returns (ghost moves: seq<Move>)
      requires Valid() && batch != []
      modifies this`table, this`cursor, this`cursorFile, this`batch, this`lingering
      ensures Valid() && State() == Run(old(State()), moves)
      ensures outcome == Inserted && works ==> batch == []
      ensures Sends(moves, outcome)
    {
      hide Next;
      ghost var w := State();
      var ok := Flush(outcome, works);
      moves := [Insert(outcome), Commit(ok)];
      RunTwo(w, Insert(outcome), Commit(ok));
      if ok {
        batch := [];
        lingering := false;
      }
    }
  }

  /** An insert with that outcome, and then a commit. */
  predicate Sends(moves: seq<Move>, outcome: InsertOutcome) {
    |moves| == 2 && moves[0] == Insert(outcome) && moves[1].Commit?
  }

  lemma ReadIs(w: World)
    requires w.process.Some? && w.process.value.phase == Reading && 1 <= w.process.value.next <= |w.log|
    ensures
      var p := w.process.value;
      var r := w.log[p.next - 1];
      Next(w, Read) == w.(process := Some(p.(batch := p.batch + [r], highest := r.seqNo, next := p.next + 1)))
  {
  }

  lemma RunOne(w: World, a: Move)
    ensures Run(w, [a]) == Next(w, a)
  {
    hide Next;
    assert [a][..0] == [];
  }

  lemma RunTwo(w: World, a: Move, b: Move)
    ensures Run(w, [a, b]) == Next(Next(w, a), b)
  {
    hide Next;
    assert [a, b][..1] == [a];
    RunOne(w, a);
  }

  lemma {:induction false} RunConcat(w: World, a: seq<Move>, b: seq<Move>)
    ensures Run(w, a + b) == Run(Run(w, a), b)
  {
    hide Next;
    if b == [] {
      assert a + b == a;
    } else {
      RunConcat(w, a, b[..|b| - 1]);
      assert (a + b)[..|a + b| - 1] == a + b[..|b| - 1];
    }
  }

  /** The batch has gone. */
  function Cleared(w: World): World
    requires w.process.Some?
  {
    w.(process := Some(w.process.value.(batch := [])))
  }
}
