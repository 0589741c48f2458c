/** The broker is asked to submit a key at most once, and never before the key's
    intent and the start of its submission are in the log. */
module Submissions {
  import opened Common
  import opened Lifecycle
  import opened Ledger
  import opened Accounting
  import opened LedgerHistory
  import opened Guards
  import opened Protocol
  import opened ProtocolSafety

  ghost predicate SubmittedOnce(s: System) {
    && (forall k | 0 <= k < |s.submissions| :: BackedBy(s.ledger, s.submissions[k]))
    && (forall j, k | 0 <= j < k < |s.submissions| ::
          s.submissions[j].row.core.orderId != s.submissions[k].row.core.orderId)
  }

  /** The submission was authorised when it was made, and its order has been started. */
  ghost predicate BackedBy(l: Durable, submission: Submission) {
    var row := submission.row;
    && Authorised(submission.at.events, row.core.orderId, row.core.key)
    && Started(l.events, row.core.orderId)
    && row.core.orderId < |l.tables.orders|
    && l.tables.orders[row.core.orderId].core.key == row.core.key
  }

  /** A task about to call the broker is the only one that may, and has not yet. */
  ghost predicate StartersAlone(s: System) {
    && (forall i | i in s.held && s.held[i].PlaceStarted? :: StarterOk(s, s.held[i].row.core))
    && (forall i, j | i in s.held && j in s.held && i != j && s.held[i].PlaceStarted? && s.held[j].PlaceStarted? ::
          s.held[i].row.core.orderId != s.held[j].row.core.orderId)
  }

  ghost predicate StarterOk(s: System, core: Order) {
    && Authorised(s.ledger.events, core.orderId, core.key)
    && forall k | 0 <= k < |s.submissions| :: s.submissions[k].row.core.orderId != core.orderId
  }

  lemma AuthorisedIsStarted(events: seq<EventRow>, id: nat, key: string)
    requires Authorised(events, id, key)
    ensures Started(events, id)
  {
  }

  /** Committing SUBMISSION_STARTED takes an order that was never started before. */
  lemma StartingIsFirst(l: Durable, row: OrderRow)
    requires Good(l) && Loaded(l, row) && ApplyEvent(l, row, SubmissionStarted).1.Updated?
    ensures
      var (l', out) := ApplyEvent(l, row, SubmissionStarted);
      && !Started(l.events, row.core.orderId)
      && out.row.core.orderId == row.core.orderId && out.row.core.key == row.core.key
      && Authorised(l'.events, row.core.orderId, row.core.key)
  {
    ApplyKeepsGood(l, row, SubmissionStarted);
    ApplyShape(l, row, SubmissionStarted);
    var id, key := row.core.orderId, row.core.key;
    var l' := ApplyEvent(l, row, SubmissionStarted).0;
    assert RecordedRow(l.events, id, row.core);
    var k: nat :| IntentAt(l.events, k, id, key);
    assert IntentAt(l'.events, k, id, key) && StartAt(l'.events, |l.events|, id);
  }

  /** Where submissions, and tasks that make them, come from. */
  lemma SubmittingEffects(l: Durable, task: Task, choice: Choice, caps: map<string, real>)
    requires Good(l) && TaskOk(l, task)
    ensures
      var e := Act(l, task, choice, caps);
      && (e.submitted.Some? <==> task.PlaceStarted?)
      && (task.PlaceStarted? ==>
            e.submitted.value == Submission(task.row, l) && e.ledger == l && !e.task.value.PlaceStarted?)
      && (e.task.Some? && e.task.value.PlaceStarted? ==>
            && task.PlaceRecorded?
            && ApplyEvent(l, task.row, SubmissionStarted).1.Updated?
            && e.ledger == ApplyEvent(l, task.row, SubmissionStarted).0
            && e.task.value.row == ApplyEvent(l, task.row, SubmissionStarted).1.row)
  {
    hide Good, Loaded, ApplyEvent, CreateOrder, Load, HasUnresolved, HasOpenEntry, OpenExitRemaining, PositionOf,
         EntryQty, ExitQty;
    if task.ReconLoaded? {
      var out := ApplyEvent(l, task.row, ReconcileStarted("reconciler")).1;
      if out.Updated? { assert !Adopting(out.row, task.view).PlaceStarted?; }
    }
  }

  lemma EvolvesKeepsBacked(l: Durable, l': Durable, submission: Submission)
    requires Evolves(l, l') && BackedBy(l, submission)
    ensures BackedBy(l', submission)
  {
    MarksStay(l.events, l'.events[|l.events|..], submission.row.core.orderId);
    assert l.events + l'.events[|l.events|..] == l'.events;
  }

  lemma EvolvesKeepsAuthorised(l: Durable, l': Durable, id: nat, key: string)
    requires Evolves(l, l') && Authorised(l.events, id, key)
    ensures Authorised(l'.events, id, key)
  {
    MarksStay(l.events, l'.events[|l.events|..], id);
    assert l.events + l'.events[|l.events|..] == l'.events;
  }

  lemma LedgerMovesKeep(s: System, l': Durable)
    requires Evolves(s.ledger, l') && SubmittedOnce(s) && StartersAlone(s)
    ensures SubmittedOnce(s.(ledger := l')) && StartersAlone(s.(ledger := l'))
  {
    hide Evolves, BackedBy, Authorised, Started;
    forall k | 0 <= k < |s.submissions| ensures BackedBy(l', s.submissions[k]) {
      EvolvesKeepsBacked(s.ledger, l', s.submissions[k]);
    }
    forall i | i in s.held && s.held[i].PlaceStarted? ensures StarterOk(s.(ledger := l'), s.held[i].row.core) {
      EvolvesKeepsAuthorised(s.ledger, l', s.held[i].row.core.orderId, s.held[i].row.core.key);
    }
  }

  lemma StarterLeaves(s: System, instrument: string, next: Task)
    requires SubmittedOnce(s) && StartersAlone(s) && !next.PlaceStarted?
    requires instrument in s.held && s.held[instrument].PlaceStarted?
    requires BackedBy(s.ledger, Submission(s.held[instrument].row, s.ledger))
    ensures
      var s' := s.(held := s.held[instrument := next],
                   submissions := s.submissions + [Submission(s.held[instrument].row, s.ledger)]);
      SubmittedOnce(s') && StartersAlone(s')
  {
    hide BackedBy, Authorised, Started;
    var row := s.held[instrument].row;
    assert StarterOk(s, row.core);
    var s' := s.(held := s.held[instrument := next], submissions := s.submissions + [Submission(row, s.ledger)]);
    forall i | i in s'.held && s'.held[i].PlaceStarted? ensures StarterOk(s', s'.held[i].row.core) {
      assert StarterOk(s, s.held[i].row.core);
    }
  }

  lemma StarterIsBacked(s: System, instrument: string)
    requires Sane(s) && StartersAlone(s) && instrument in s.held && s.held[instrument].PlaceStarted?
    ensures BackedBy(s.ledger, Submission(s.held[instrument].row, s.ledger))
  {
    var row := s.held[instrument].row;
    assert StarterOk(s, row.core) && TaskOk(s.ledger, s.held[instrument]);
    AuthorisedIsStarted(s.ledger.events, row.core.orderId, row.core.key);
    LoadedIdentity(s.ledger, row);
  }

  /** An order that was never started is neither submitted nor about to be. */
  lemma UnstartedIsUnclaimed(s: System, id: nat)
    requires SubmittedOnce(s) && StartersAlone(s) && !Started(s.ledger.events, id)
    ensures forall k | 0 <= k < |s.submissions| :: s.submissions[k].row.core.orderId != id
    ensures forall i | i in s.held && s.held[i].PlaceStarted? :: s.held[i].row.core.orderId != id
  {
    forall k | 0 <= k < |s.submissions| ensures s.submissions[k].row.core.orderId != id {
      assert BackedBy(s.ledger, s.submissions[k]);
    }
    forall i | i in s.held && s.held[i].PlaceStarted? ensures s.held[i].row.core.orderId != id {
      assert StarterOk(s, s.held[i].row.core);
      AuthorisedIsStarted(s.ledger.events, s.held[i].row.core.orderId, s.held[i].row.core.key);
    }
  }

  lemma StarterJoins(s: System, instrument: string, starter: Task)
    requires SubmittedOnce(s) && StartersAlone(s) && starter.PlaceStarted? && StarterOk(s, starter.row.core)
    requires forall i | i in s.held && s.held[i].PlaceStarted? ::
      s.held[i].row.core.orderId != starter.row.core.orderId
    ensures
      var s' := s.(held := s.held[instrument := starter]);
      SubmittedOnce(s') && StartersAlone(s')
  {
    hide BackedBy, Authorised, Started;
    var s' := s.(held := s.held[instrument := starter]);
    forall i | i in s'.held && s'.held[i].PlaceStarted? ensures StarterOk(s', s'.held[i].row.core) {
      if i != instrument { assert StarterOk(s, s.held[i].row.core); }
    }
  }

  lemma StartMove(s: System, instrument: string, choice: Choice)
    requires instrument in s.held && s.held[instrument].PlaceRecorded?
    requires ApplyEvent(s.ledger, s.held[instrument].row, SubmissionStarted).1.Updated?
    ensures
      var task := s.held[instrument];
      var (l', out) := ApplyEvent(s.ledger, task.row, SubmissionStarted);
      Next(s, Advance(instrument, choice)) ==
        s.(ledger := l', held := s.held[instrument := PlaceStarted(task.intent, out.row)])
  {
    hide ApplyEvent;
  }

  lemma StartKeeps(s: System, instrument: string, choice: Choice)
    requires Sane(s) && SubmittedOnce(s) && StartersAlone(s)
    requires instrument in s.held && s.held[instrument].PlaceRecorded?
    requires ApplyEvent(s.ledger, s.held[instrument].row, SubmissionStarted).1.Updated?
    ensures
      var s' := Next(s, Advance(instrument, choice));
      SubmittedOnce(s') && StartersAlone(s')
  {
    var task := s.held[instrument];
    assert TaskOk(s.ledger, task);
    hide SubmittedOnce, StartersAlone, Good, Loaded, TaskOk, Evolves, ApplyEvent, Authorised, Started, Sane;
    StartMove(s, instrument, choice);
    hide Next;
    StartingIsFirst(s.ledger, task.row);
    ApplyKeepsGood(s.ledger, task.row, SubmissionStarted);
    UnstartedIsUnclaimed(s, task.row.core.orderId);
    var (l', out) := ApplyEvent(s.ledger, task.row, SubmissionStarted);
    LedgerMovesKeep(s, l');
    StarterJoins(s.(ledger := l'), instrument, PlaceStarted(task.intent, out.row));
  }

  lemma NextKeepsOnce(s: System, move: Move)
    requires Sane(s) && SubmittedOnce(s) && StartersAlone(s)
    ensures SubmittedOnce(Next(s, move)) && StartersAlone(Next(s, move))
  {
    hide Sane, SubmittedOnce, StartersAlone, Act, ApplyEvent, CreateOrder, Evolves, Replay;
    NextIsSane(s, move);
    if move.Advance? && move.instrument in s.held {
      AdvanceKeepsOnce(s, move.instrument, move.choice);
    } else {
      QuietMoveKeeps(s, move);
    }
  }

  lemma AdvanceKeepsOnce(s: System, instrument: string, choice: Choice)
    requires Sane(s) && SubmittedOnce(s) && StartersAlone(s) && instrument in s.held
    requires Evolves(s.ledger, Next(s, Advance(instrument, choice)).ledger)
    ensures SubmittedOnce(Next(s, Advance(instrument, choice))) && StartersAlone(Next(s, Advance(instrument, choice)))
  {
    var task := s.held[instrument];
    assert TaskOk(s.ledger, task);
    var effect := Act(s.ledger, task, choice, s.caps);
    SubmittingEffects(s.ledger, task, choice, s.caps);
    hide SubmittedOnce, StartersAlone, Sane, TaskOk, Good, Evolves, ApplyEvent, Act;
    if task.PlaceStarted? {
      StarterIsBacked(s, instrument);
      StarterLeaves(s, instrument, effect.task.value);
    } else if effect.task.Some? && effect.task.value.PlaceStarted? {
      StartKeeps(s, instrument, choice);
    } else {
      QuietMoveKeeps(s, Advance(instrument, choice));
    }
  }

  /** A move that neither submits nor starts a submission leaves both as they were. */
  lemma QuietMoveKeeps(s: System, move: Move)
    requires SubmittedOnce(s) && StartersAlone(s) && Evolves(s.ledger, Next(s, move).ledger)
    requires Next(s, move).submissions == s.submissions
    requires
      var held := Next(s, move).held;
      forall i | i in held && held[i].PlaceStarted? :: i in s.held && s.held[i] == held[i]
    ensures SubmittedOnce(Next(s, move)) && StartersAlone(Next(s, move))
  {
    hide Evolves, Act, ApplyEvent, CreateOrder, Next, BackedBy, Authorised;
    LedgerMovesKeep(s, Next(s, move).ledger);
    var moved, s' := s.(ledger := Next(s, move).ledger), Next(s, move);
    forall i | i in s'.held && s'.held[i].PlaceStarted? ensures StarterOk(s', s'.held[i].row.core) {
      assert StarterOk(moved, moved.held[i].row.core);
    }
  }

  lemma {:induction false} RunsSubmitOnce(caps: map<string, real>, moves: seq<Move>)
    ensures SubmittedOnce(Execute(caps, moves)) && StartersAlone(Execute(caps, moves))
  {
    if moves != [] {
      RunsSubmitOnce(caps, moves[..|moves| - 1]);
      RunsAreSane(caps, moves[..|moves| - 1]);
      NextKeepsOnce(Execute(caps, moves[..|moves| - 1]), moves[|moves| - 1]);
    }
  }

  /** Across every interleaving, crash, restart and replay of a command, no two
      submissions carry the same key, and each was preceded in the log by the
      key's intent and the start of its submission. */
  lemma AtMostOneSubmission(caps: map<string, real>, moves: seq<Move>)
    ensures
      var submissions := Execute(caps, moves).submissions;
      && (forall j, k | 0 <= j < k < |submissions| :: submissions[j].row.core.key != submissions[k].row.core.key)
      && (forall k | 0 <= k < |submissions| ::
            Authorised(submissions[k].at.events, submissions[k].row.core.orderId, submissions[k].row.core.key))
  {
    RunsSubmitOnce(caps, moves);
    RunsAreSane(caps, moves);
    var s := Execute(caps, moves);
    forall j, k | 0 <= j < k < |s.submissions| ensures s.submissions[j].row.core.key != s.submissions[k].row.core.key {
      assert BackedBy(s.ledger, s.submissions[j]) && BackedBy(s.ledger, s.submissions[k]);
    }
  }
}
