/** The escalation dialog's state and its action handler (`handleAction` in
    ModernTimerModal.tsx).  The caller's callbacks are recorded in an effect
    log together with the busy flag being raised and lowered, the toasts, the
    error log line and `onClose`; whether a callback fails is decided by an
    oracle the caller passes in.  `ReactionTo` states what one action does, as a
    function of the dialog's state before it; `TimerModal.HandleAction` is the
    step-by-step handler, proved to do exactly that. */
module EscalationModal {
  import opened Wrappers
  import opened Observation
  import opened ModalRules

  /** The caller-supplied callbacks, with the arguments they are given. */
  datatype Call =
    | UpdateStatusFinal(chamado: int, key: string, status: string)
    | UpdateObservacao(chamado: int, level: int, note: string)
    | NextLevel(chamado: int, level: int, note: string)
    | PreviousLevel(chamado: int, level: int, note: string)

  /** The toasts, by what they announce. */
  datatype Notice =
    | NoteRequired
    | NoteTooShort
    | AlreadyFinalized
    | TicketFinished(chamado: int)
    | LevelStarted(level: int)
    | ReturningTo(level: int)
    | OperationFailed

  datatype Effect =
    | Invoke(call: Call)
    | SetBusy(busy: bool)   // setIsProcessing
    | Toast(notice: Notice)
    | LogError              // console.error in the catch block
    | Close                 // onClose()

  /** What handleAction reads: its props and its state when it starts. */
  datatype Snapshot = Snapshot(chamado: int, currentLevel: int, observacao: string, finalizado: bool)

  /** What one action leaves behind: the effects issued, in order, and the
      note and flag afterwards (the busy flag always ends lowered). */
  datatype Reaction = Reaction(effects: seq<Effect>, observacao: string, finalizado: bool)

  /** The callbacks an action awaits, group by group: a group of two is one
      `Promise.all`, which issues both before awaiting either. */
  function Plan(action: Action, chamado: int, level: int, note: string): seq<seq<Call>> {
    var status := UpdateStatusFinal(chamado, LevelStatusKey(level), FinishedStatus);
    var record := UpdateObservacao(chamado, level, note);
    match action
    case Next =>
      if level >= 5 then [[status, record]]
      else [[status], [record], [NextLevel(chamado, level + 1, note)]]
    case Previous =>
      if level > 1 then [[PreviousLevel(chamado, level - 1, note)]] else []
    case Finish => [[status, record]]
  }

  function AnyRejected(calls: seq<Call>, rejects: Call -> bool): (b: bool)
    ensures b <==> exists i :: 0 <= i < |calls| && rejects(calls[i])
  {
    if calls == [] then false else rejects(calls[0]) || AnyRejected(calls[1..], rejects)
  }

  /** Awaits the groups in turn: the calls issued, and whether every group
      succeeded.  A failing group stops the rest. */
  function Issue(groups: seq<seq<Call>>, rejects: Call -> bool): (seq<Call>, bool) {
    if groups == [] then ([], true)
    else if AnyRejected(groups[0], rejects) then (groups[0], false)
    else
      var (rest, ok) := Issue(groups[1..], rejects);
      (groups[0] + rest, ok)
  }

  function Invocations(calls: seq<Call>): (r: seq<Effect>)
    ensures |r| == |calls|
    ensures forall i :: 0 <= i < |calls| ==> r[i] == Invoke(calls[i])
  {
    seq(|calls|, i requires 0 <= i < |calls| => Invoke(calls[i]))
  }

  /** The toast a successful action shows before the dialog closes. */
  function SuccessNotices(action: Action, chamado: int, level: int): seq<Effect> {
    match action
    case Next => if level >= 5 then [Toast(TicketFinished(chamado))] else [Toast(LevelStarted(level + 1))]
    case Previous => if level > 1 then [Toast(ReturningTo(level - 1))] else []
    case Finish => [Toast(TicketFinished(chamado))]
  }

  /** handleAction, as a function of the state it starts from: a refused
      note only shows its toast; otherwise the busy flag brackets either the
      "already finalized" toast or the attempt. */
  function ReactionTo(m: Snapshot, action: Action, rejects: Call -> bool): Reaction {
    match ValidateObservacao(m.observacao)
    case Empty => Reaction([Toast(NoteRequired)], m.observacao, m.finalizado)
    case TooShort => Reaction([Toast(NoteTooShort)], m.observacao, m.finalizado)
    case Accepted =>
      if m.finalizado && action != Previous then
        Busy(Reaction([Toast(AlreadyFinalized)], m.observacao, m.finalizado))
      else
        Proceed(m, action, Trim(m.observacao), rejects)
  }

  /** `setIsProcessing(true)` before the try block, `false` in its finally. */
  function Busy(inner: Reaction): Reaction {
    Reaction([SetBusy(true)] + inner.effects + [SetBusy(false)], inner.observacao, inner.finalizado)
  }

  /** The part of handleAction past both guards, given the trimmed note. */
  function Proceed(m: Snapshot, action: Action, note: string, rejects: Call -> bool): Reaction {
    Busy(Attempt(m, action, note, rejects))
  }

  /** The try block: the planned callbacks, then how it settles. */
  function Attempt(m: Snapshot, action: Action, note: string, rejects: Call -> bool): Reaction {
    var (issued, ok) := Issue(Plan(action, m.chamado, m.currentLevel, note), rejects);
    Settle(m, action, issued, ok)
  }

  /** After the callbacks issued: on success the success toast, the cleared
      note and onClose; on failure the catch block's error report with the
      note kept. */
  function Settle(m: Snapshot, action: Action, issued: seq<Call>, ok: bool): Reaction {
    if ok then
      Reaction(Invocations(issued) + (SuccessNotices(action, m.chamado, m.currentLevel) + [Close]),
               "", m.finalizado || action == Finish)
    else
      Reaction(Invocations(issued) + [LogError, Toast(OperationFailed)], m.observacao, m.finalizado)
  }

  /** ReactionTo once the note is accepted: the busy bracket around the guard's
      toast or the attempt. */
  lemma ReactionToAccepted(m: Snapshot, action: Action, rejects: Call -> bool)
    requires ValidateObservacao(m.observacao) == Accepted
    ensures ReactionTo(m, action, rejects) ==
      Busy(if m.finalizado && action != Previous
           then Reaction([Toast(AlreadyFinalized)], m.observacao, m.finalizado)
           else Attempt(m, action, Trim(m.observacao), rejects))
  {
  }

  /** An attempt either clears the note or keeps it. */
  lemma AttemptClearsOrKeepsNote(m: Snapshot, action: Action, note: string, rejects: Call -> bool)
    ensures var a := Attempt(m, action, note, rejects);
      a.observacao == "" || a.observacao == m.observacao
  {
  }

  /** The callbacks among the effects, in order. */
  function Calls(effects: seq<Effect>): seq<Call> {
    if effects == [] then []
    else (if effects[0].Invoke? then [effects[0].call] else []) + Calls(effects[1..])
  }

  predicate NoCalls(effects: seq<Effect>) {
    forall i :: 0 <= i < |effects| ==> !effects[i].Invoke?
  }

  lemma {:induction false} CallsAppend(a: seq<Effect>, b: seq<Effect>)
    ensures Calls(a + b) == Calls(a) + Calls(b)
    decreases |a|
  {
    if a == [] {
      assert a + b == b;
    } else {
      assert (a + b)[0] == a[0];
      assert (a + b)[1..] == a[1..] + b;
      CallsAppend(a[1..], b);
    }
  }

  lemma {:induction false} CallsOfInvocations(calls: seq<Call>)
    ensures Calls(Invocations(calls)) == calls
    decreases |calls|
  {
    if calls != [] {
      assert Invocations(calls)[1..] == Invocations(calls[1..]);
      CallsOfInvocations(calls[1..]);
    }
  }

  lemma {:induction false} CallsOfNone(effects: seq<Effect>)
    requires NoCalls(effects)
    ensures Calls(effects) == []
    decreases |effects|
  {
    if effects != [] {
      CallsOfNone(effects[1..]);
    }
  }

  /** The callbacks of an effect log of the shape Busy(Settle(...)) has: the
      busy flag, the invocations, effects that invoke nothing, the busy flag. */
  lemma CallsOfBracket(calls: seq<Call>, mid: seq<Effect>)
    requires NoCalls(mid)
    ensures Calls([SetBusy(true)] + (Invocations(calls) + mid) + [SetBusy(false)]) == calls
  {
    var inv := Invocations(calls);
    CallsAppend([SetBusy(true)] + (inv + mid), [SetBusy(false)]);
    CallsAppend([SetBusy(true)], inv + mid);
    CallsAppend(inv, mid);
    CallsOfInvocations(calls);
    CallsOfNone(mid);
    CallsOfNone([SetBusy(true)]);
    CallsOfNone([SetBusy(false)]);
  }

  /** Awaiting a single call first: it fails alone, or the rest follows. */
  lemma IssueOne(a: Call, rest: seq<seq<Call>>, rejects: Call -> bool)
    ensures Issue([[a]] + rest, rejects) ==
      if rejects(a) then ([a], false)
      else ([a] + Issue(rest, rejects).0, Issue(rest, rejects).1)
  {
    assert ([[a]] + rest)[1..] == rest;
    assert [a][1..] == [];
  }

  /** A Promise.all of two calls: both issued, failing when either fails. */
  lemma IssueTwo(a: Call, b: Call, rejects: Call -> bool)
    ensures Issue([[a, b]], rejects) == ([a, b], !rejects(a) && !rejects(b))
  {
    assert [[a, b]][1..] == [];
    assert [a, b][1..] == [b];
    assert [b][1..] == [];
    assert [a, b] + [] == [a, b];
    assert AnyRejected([b], rejects) == rejects(b);
    assert AnyRejected([a, b], rejects) == (rejects(a) || rejects(b));
    assert Issue([], rejects) == ([], true);
  }

  /** Three single calls awaited in turn: the first failure stops the rest. */
  lemma IssueThree(a: Call, b: Call, c: Call, rejects: Call -> bool)
    ensures Issue([[a], [b], [c]], rejects) ==
      if rejects(a) then ([a], false)
      else if rejects(b) then ([a, b], false)
      else ([a, b, c], !rejects(c))
  {
    assert [[a], [b], [c]] == [[a]] + ([[b]] + ([[c]] + []));
    IssueOne(a, [[b]] + ([[c]] + []), rejects);
    IssueOne(b, [[c]] + [], rejects);
    IssueOne(c, [], rejects);
    assert [a] + [b] == [a, b];
    assert [a] + ([b] + [c]) == [a, b, c];
    assert [c] + [] == [c];
  }

  /** An effect other than a callback is not among the invocations. */
  lemma NotInvoked(calls: seq<Call>, e: Effect)
    requires !e.Invoke?
    ensures e !in Invocations(calls)
  {
  }

  /** The callbacks in the log are exactly the ones issued ... */
  lemma SettleCalls(m: Snapshot, action: Action, issued: seq<Call>, ok: bool)
    ensures Calls(Busy(Settle(m, action, issued, ok)).effects) == issued
  {
    if ok {
      var notices := SuccessNotices(action, m.chamado, m.currentLevel);
      assert NoCalls(notices + [Close]);
      CallsOfBracket(issued, notices + [Close]);
    } else {
      CallsOfBracket(issued, [LogError, Toast(OperationFailed)]);
    }
  }

  /** ... the dialog closes exactly on success and reports exactly a
      failure ... */
  lemma SettleSignals(m: Snapshot, action: Action, issued: seq<Call>, ok: bool)
    ensures var e := Busy(Settle(m, action, issued, ok)).effects;
      && (Close in e <==> ok)
      && (Toast(OperationFailed) in e <==> !ok)
  {
    NotInvoked(issued, Close);
    NotInvoked(issued, Toast(OperationFailed));
    if ok {
      var notices := SuccessNotices(action, m.chamado, m.currentLevel);
      assert Close !in notices && Toast(OperationFailed) !in notices;
    }
  }

  /** ... and the note clears, and Finish raises the flag, only on success. */
  lemma SettleShape(m: Snapshot, action: Action, issued: seq<Call>, ok: bool)
    ensures var r := Busy(Settle(m, action, issued, ok));
      && Calls(r.effects) == issued
      && (Close in r.effects <==> ok)
      && (Toast(OperationFailed) in r.effects <==> !ok)
      && r.observacao == (if ok then "" else m.observacao)
      && r.finalizado == (if ok then m.finalizado || action == Finish else m.finalizado)
  {
    SettleCalls(m, action, issued, ok);
    SettleSignals(m, action, issued, ok);
  }

  lemma ProceedShape(m: Snapshot, action: Action, note: string, rejects: Call -> bool)
    ensures var (issued, ok) := Issue(Plan(action, m.chamado, m.currentLevel, note), rejects);
      var r := Proceed(m, action, note, rejects);
      && Calls(r.effects) == issued
      && (Close in r.effects <==> ok)
      && (Toast(OperationFailed) in r.effects <==> !ok)
      && r.observacao == (if ok then "" else m.observacao)
      && r.finalizado == (if ok then m.finalizado || action == Finish else m.finalizado)
  {
    var (issued, ok) := Issue(Plan(action, m.chamado, m.currentLevel, note), rejects);
    SettleShape(m, action, issued, ok);
  }

  /** The status update and the note record an action sends. */
  function StatusCall(m: Snapshot): Call {
    UpdateStatusFinal(m.chamado, LevelStatusKey(m.currentLevel), FinishedStatus)
  }

  function RecordCall(m: Snapshot): Call {
    UpdateObservacao(m.chamado, m.currentLevel, Trim(m.observacao))
  }

  /** A refused note: one toast, no callback, the busy flag never raised, and
      the note and flag as they were. */
  lemma RefusedNoteIsInert(m: Snapshot, action: Action, rejects: Call -> bool)
    requires ValidateObservacao(m.observacao) != Accepted
    ensures var r := ReactionTo(m, action, rejects);
      && r.effects == [Toast(if ValidateObservacao(m.observacao) == Empty then NoteRequired else NoteTooShort)]
      && Calls(r.effects) == []
      && SetBusy(true) !in r.effects && Close !in r.effects
      && r.observacao == m.observacao && r.finalizado == m.finalizado
  {
    var notice := if ValidateObservacao(m.observacao) == Empty then NoteRequired else NoteTooShort;
    assert ReactionTo(m, action, rejects) == Reaction([Toast(notice)], m.observacao, m.finalizado);
    CallsOfNone([Toast(notice)]);
  }

  /** On a finalized ticket Next and Finish call nothing, keep the note, leave
      the dialog open and lower the busy flag again. */
  lemma FinalizedRefusesAdvance(m: Snapshot, action: Action, rejects: Call -> bool)
    requires ValidateObservacao(m.observacao) == Accepted
    requires m.finalizado && action != Previous
    ensures var r := ReactionTo(m, action, rejects);
      && Calls(r.effects) == []
      && Toast(AlreadyFinalized) in r.effects && Close !in r.effects
      && r.effects[|r.effects| - 1] == SetBusy(false)
      && r.observacao == m.observacao && r.finalizado
  {
    var e := [SetBusy(true)] + [Toast(AlreadyFinalized)] + [SetBusy(false)];
    assert ReactionTo(m, action, rejects) == Reaction(e, m.observacao, m.finalizado);
    CallsOfNone(e);
  }

  /** Next below level 5 past the guards, for any note. */
  lemma ProceedNextBelowTop(m: Snapshot, note: string, rejects: Call -> bool)
    requires m.currentLevel < 5
    ensures var r := Proceed(m, Next, note, rejects);
      var st := UpdateStatusFinal(m.chamado, LevelStatusKey(m.currentLevel), FinishedStatus);
      var rc := UpdateObservacao(m.chamado, m.currentLevel, note);
      var advance := NextLevel(m.chamado, m.currentLevel + 1, note);
      var ok := !rejects(st) && !rejects(rc) && !rejects(advance);
      && Calls(r.effects) == (if rejects(st) then [st]
                              else if rejects(rc) then [st, rc]
                              else [st, rc, advance])
      && (Close in r.effects <==> ok)
      && r.observacao == (if ok then "" else m.observacao)
      && r.finalizado == m.finalizado
  {
    var st := UpdateStatusFinal(m.chamado, LevelStatusKey(m.currentLevel), FinishedStatus);
    var rc := UpdateObservacao(m.chamado, m.currentLevel, note);
    var advance := NextLevel(m.chamado, m.currentLevel + 1, note);
    IssueThree(st, rc, advance, rejects);
    ProceedShape(m, Next, note, rejects);
  }

  /** Next below level 5: the status update, the note and the move to the
      next level, once each and in that order, stopping at the first failure;
      the dialog closes and the note is cleared only when all three succeed. */
  lemma NextBelowTop(m: Snapshot, rejects: Call -> bool)
    requires ValidateObservacao(m.observacao) == Accepted
    requires !m.finalizado && m.currentLevel < 5
    ensures var r := ReactionTo(m, Next, rejects);
      var advance := NextLevel(m.chamado, m.currentLevel + 1, Trim(m.observacao));
      var ok := !rejects(StatusCall(m)) && !rejects(RecordCall(m)) && !rejects(advance);
      && Calls(r.effects) == (if rejects(StatusCall(m)) then [StatusCall(m)]
                              else if rejects(RecordCall(m)) then [StatusCall(m), RecordCall(m)]
                              else [StatusCall(m), RecordCall(m), advance])
      && (Close in r.effects <==> ok)
      && r.observacao == (if ok then "" else m.observacao)
      && !r.finalizado
  {
    assert ReactionTo(m, Next, rejects) == Proceed(m, Next, Trim(m.observacao), rejects);
    ProceedNextBelowTop(m, Trim(m.observacao), rejects);
  }

  /** Next at level 5 or above: the status update and the note, never a move
      to another level, and the flag is not set by the action itself. */
  lemma NextAtTop(m: Snapshot, rejects: Call -> bool)
    requires ValidateObservacao(m.observacao) == Accepted
    requires !m.finalizado && m.currentLevel >= 5
    ensures var r := ReactionTo(m, Next, rejects);
      var ok := !rejects(StatusCall(m)) && !rejects(RecordCall(m));
      && Calls(r.effects) == [StatusCall(m), RecordCall(m)]
      && (Close in r.effects <==> ok)
      && r.observacao == (if ok then "" else m.observacao)
      && !r.finalizado
  {
    var note := Trim(m.observacao);
    assert ReactionTo(m, Next, rejects) == Proceed(m, Next, note, rejects);
    IssueTwo(StatusCall(m), RecordCall(m), rejects);
    ProceedShape(m, Next, note, rejects);
  }

  /** Previous above level 1, finalized or not: only the move to the level
      below; the flag is left as it was. */
  lemma PreviousAboveBottom(m: Snapshot, rejects: Call -> bool)
    requires ValidateObservacao(m.observacao) == Accepted
    requires m.currentLevel > 1
    ensures var r := ReactionTo(m, Previous, rejects);
      var back := PreviousLevel(m.chamado, m.currentLevel - 1, Trim(m.observacao));
      && Calls(r.effects) == [back]
      && (Close in r.effects <==> !rejects(back))
      && r.observacao == (if rejects(back) then m.observacao else "")
      && r.finalizado == m.finalizado
  {
    var note := Trim(m.observacao);
    var back := PreviousLevel(m.chamado, m.currentLevel - 1, note);
    assert ReactionTo(m, Previous, rejects) == Proceed(m, Previous, note, rejects);
    assert Plan(Previous, m.chamado, m.currentLevel, note) == [[back]] + [];
    IssueOne(back, [], rejects);
    ProceedShape(m, Previous, note, rejects);
  }

  /** Previous at level 1 (or below) calls nothing, yet still clears the note
      and closes the dialog. */
  lemma PreviousAtBottom(m: Snapshot, rejects: Call -> bool)
    requires ValidateObservacao(m.observacao) == Accepted
    requires m.currentLevel <= 1
    ensures var r := ReactionTo(m, Previous, rejects);
      && Calls(r.effects) == []
      && Close in r.effects
      && r.observacao == "" && r.finalizado == m.finalizado
  {
    var note := Trim(m.observacao);
    assert ReactionTo(m, Previous, rejects) == Proceed(m, Previous, note, rejects);
    ProceedShape(m, Previous, note, rejects);
  }

  /** Finish: the status update and the note; when both succeed the ticket is
      finalized, the note cleared and the dialog closed; when either fails the
      flag and the note are unchanged, the dialog stays open and the failure
      is reported. */
  lemma FinishOutcome(m: Snapshot, rejects: Call -> bool)
    requires ValidateObservacao(m.observacao) == Accepted
    requires !m.finalizado
    ensures var r := ReactionTo(m, Finish, rejects);
      var ok := !rejects(StatusCall(m)) && !rejects(RecordCall(m));
      && Calls(r.effects) == [StatusCall(m), RecordCall(m)]
      && (ok ==> r.finalizado && r.observacao == "" && Close in r.effects)
      && (!ok ==> !r.finalizado && r.observacao == m.observacao && Close !in r.effects
                  && Toast(OperationFailed) in r.effects)
  {
    var note := Trim(m.observacao);
    assert ReactionTo(m, Finish, rejects) == Proceed(m, Finish, note, rejects);
    IssueTwo(StatusCall(m), RecordCall(m), rejects);
    ProceedShape(m, Finish, note, rejects);
  }

  lemma ProceedBusyBracketed(m: Snapshot, action: Action, note: string, rejects: Call -> bool)
    ensures var e := Proceed(m, action, note, rejects).effects;
      && |e| >= 2 && e[0] == SetBusy(true) && e[|e| - 1] == SetBusy(false)
      && forall i :: 0 < i < |e| - 1 ==> !e[i].SetBusy?
  {
  }

  /** Whenever the busy flag is raised it is raised first and lowered last,
      and nowhere in between. */
  lemma BusyBracketed(m: Snapshot, action: Action, rejects: Call -> bool)
    ensures var e := ReactionTo(m, action, rejects).effects;
      SetBusy(true) in e ==>
        && |e| >= 2 && e[0] == SetBusy(true) && e[|e| - 1] == SetBusy(false)
        && forall i :: 0 < i < |e| - 1 ==> !e[i].SetBusy?
  {
    if ValidateObservacao(m.observacao) == Accepted && !(m.finalizado && action != Previous) {
      assert ReactionTo(m, action, rejects) == Proceed(m, action, Trim(m.observacao), rejects);
      ProceedBusyBracketed(m, action, Trim(m.observacao), rejects);
    }
  }

  /** The dialog closes exactly when the action changes the note, which it
      then clears; it never closes after reporting a failure, and on a
      finalized ticket only Previous closes it. */
  lemma CloseIffCleared(m: Snapshot, action: Action, rejects: Call -> bool)
    ensures var r := ReactionTo(m, action, rejects);
      && (Close in r.effects <==> r.observacao != m.observacao)
      && (Close in r.effects ==> r.observacao == "")
      && (Close in r.effects ==> Toast(OperationFailed) !in r.effects)
      && (Close in r.effects && m.finalizado ==> action == Previous)
  {
    if ValidateObservacao(m.observacao) == Accepted && !(m.finalizado && action != Previous) {
      var note := Trim(m.observacao);
      assert ReactionTo(m, action, rejects) == Proceed(m, action, note, rejects);
      assert note != [] && |m.observacao| >= |note|;
      ProceedShape(m, action, note, rejects);
    }
  }

  /** An action the user can trigger on a rendered dialog always reaches the
      callbacks: it raises the busy flag and ends either closed or reporting
      the failure. */
  lemma AvailableActionRuns(m: Snapshot, action: Action, isProcessing: bool, rejects: Call -> bool)
    requires ActionAvailable(action, m.currentLevel, m.finalizado, m.observacao, isProcessing)
    requires Renders(m.finalizado, m.currentLevel)
    ensures 1 <= m.currentLevel <= 5
    ensures var e := ReactionTo(m, action, rejects).effects;
      && e[0] == SetBusy(true)
      && (Close in e || Toast(OperationFailed) in e)
      && Toast(AlreadyFinalized) !in e
  {
    AvailableActionPreconditions(action, m.currentLevel, m.finalizado, m.observacao, isProcessing);
    var note := Trim(m.observacao);
    assert ReactionTo(m, action, rejects) == Proceed(m, action, note, rejects);
    var (issued, ok) := Issue(Plan(action, m.chamado, m.currentLevel, note), rejects);
    SettleSignals(m, action, issued, ok);
    NotInvoked(issued, Toast(AlreadyFinalized));
    assert Toast(AlreadyFinalized) !in SuccessNotices(action, m.chamado, m.currentLevel);
  }

  /** The demonstration ticket at level 2 with a valid note: when every
      callback succeeds, Next records the level as finished, saves the note,
      moves to level 3, announces it and closes with the note cleared. */
  lemma DemoAdvance(rejects: Call -> bool)
    requires forall c :: !rejects(c)
    ensures var m := Snapshot(12345, 2, "Diagnóstico concluído", false);
      var note := "Diagnóstico concluído";
      var r := ReactionTo(m, Next, rejects);
      && Calls(r.effects) == [UpdateStatusFinal(12345, "level2_status", "finished"),
                              UpdateObservacao(12345, 2, note), NextLevel(12345, 3, note)]
      && Close in r.effects && Toast(LevelStarted(3)) in r.effects
      && r.observacao == "" && !r.finalizado
  {
    var m := Snapshot(12345, 2, "Diagnóstico concluído", false);
    assert LeadingSpace(m.observacao) == 0;
    assert TrailingSpace(m.observacao) == 0;
    assert Trim(m.observacao) == m.observacao;
    assert LevelStatusKey(2) == "level2_status";
    NextBelowTop(m, rejects);
    assert ReactionTo(m, Next, rejects) == Proceed(m, Next, m.observacao, rejects);
    var st := UpdateStatusFinal(12345, "level2_status", "finished");
    var rc := UpdateObservacao(12345, 2, m.observacao);
    var adv := NextLevel(12345, 3, m.observacao);
    IssueThree(st, rc, adv, rejects);
    assert Attempt(m, Next, m.observacao, rejects).effects
      == Invocations([st, rc, adv]) + ([Toast(LevelStarted(3))] + [Close]);
  }

  /** Regrouping a concatenation of effect logs. */
  lemma AppendAssoc(a: seq<Effect>, b: seq<Effect>, c: seq<Effect>)
    ensures a + (b + c) == a + b + c
  {
  }

  lemma AppendAssoc4(a: seq<Effect>, b: seq<Effect>, c: seq<Effect>, d: seq<Effect>)
    ensures a + (b + c + d) == a + b + c + d
    ensures a + (b + (c + d)) == a + b + c + d
  {
  }

  /** The dialog: its props (ticket id, level, ticket data), its state (the
      note draft, the busy flag, the finalized flag) and the log of what it has
      done so far. */
  class TimerModal {
    var chamado: int
    var currentLevel: int
    var chamadoData: TicketData
    var observacao: string
    var isProcessing: bool
    var finalizado: bool
    var log: seq<Effect>

    /** Between events nothing is in flight and the note fits the textarea. */
    ghost predicate Valid()
      reads this
    {
      Utf16Length(observacao) <= MaxNoteLength && !isProcessing
    }

    function Current(): Snapshot
      reads this`chamado, this`currentLevel, this`observacao, this`finalizado
    {
      Snapshot(chamado, currentLevel, observacao, finalizado)
    }

    /** Mounting: an empty note, nothing in flight, `finalizado` derived from
        the ticket data. */
    constructor (chamado: int, currentLevel: int, chamadoData: TicketData)
      ensures Valid()
      ensures this.chamado == chamado && this.currentLevel == currentLevel
      ensures this.chamadoData == chamadoData
      ensures observacao == "" && finalizado == Finalized(chamadoData, currentLevel)
      ensures log == []
    {
      this.chamado := chamado;
      this.currentLevel := currentLevel;
      this.chamadoData := chamadoData;
      observacao := "";
      isProcessing := false;
      finalizado := Finalized(chamadoData, currentLevel);
      log := [];
    }

    /** The textarea's onChange; the browser keeps the value within maxLength
        and a disabled textarea sends no change. */
    method Edit(text: string)
      requires Valid()
      requires Utf16Length(text) <= MaxNoteLength
      modifies this`observacao
      ensures Valid()
      ensures observacao == if NoteEditable(isProcessing, finalizado) then text else old(observacao)
    {
      if NoteEditable(isProcessing, finalizado) {
        observacao := text;
      }
    }

    /** New props from the host.  The effect re-derives `finalizado` only when
        the ticket data or the level's status key changes; the note is kept. */
    method Receive(newChamado: int, newLevel: int, newData: TicketData)
      requires Valid()
      modifies this`chamado, this`currentLevel, this`chamadoData, this`finalizado
      ensures Valid()
      ensures chamado == newChamado && currentLevel == newLevel && chamadoData == newData
      ensures finalizado == if newData != old(chamadoData) || newLevel != old(currentLevel)
                            then Finalized(newData, newLevel) else old(finalizado)
    {
      var keyChanged := LevelStatusKey(newLevel) != LevelStatusKey(currentLevel);
      if !keyChanged && newLevel != currentLevel {
        LevelStatusKeyInjective(newLevel, currentLevel);
      }
      if newData != chamadoData || keyChanged {
        finalizado := Finalized(newData, newLevel);
      }
      chamado, currentLevel, chamadoData := newChamado, newLevel, newData;
    }

    /** One awaited callback. */
    method Await(c: Call, rejects: Call -> bool) returns (failed: bool)
      modifies this`log
      ensures log == old(log) + [Invoke(c)] && failed == rejects(c)
    {
      log := log + [Invoke(c)];
      failed := rejects(c);
    }

    /** `Promise.all` over two callbacks: both are issued, and it fails when
        either does. */
    method AwaitBoth(a: Call, b: Call, rejects: Call -> bool) returns (failed: bool)
      modifies this`log
      ensures log == old(log) + [Invoke(a), Invoke(b)] && failed == (rejects(a) || rejects(b))
    {
      log := log + [Invoke(a), Invoke(b)];
      failed := rejects(a) || rejects(b);
    }

    /** The awaited callbacks of the try block and its success toast; Finish
        also sets the flag once both of its calls succeed. */
    method RunCallbacks(action: Action, trimmed: string, rejects: Call -> bool) returns (failed: bool)
      modifies this`log, this`finalizado
      ensures var (issued, ok) := Issue(Plan(action, chamado, currentLevel, trimmed), rejects);
        && failed == !ok
        && log == old(log) + Invocations(issued)
                  + (if ok then SuccessNotices(action, chamado, currentLevel) else [])
        && finalizado == (if ok && action == Finish then true else old(finalizado))
    {
      match action {
        case Next => failed := RunNext(trimmed, rejects);
        case Previous => failed := RunPrevious(trimmed, rejects);
        case Finish => failed := RunFinish(trimmed, rejects);
      }
    }

    /** case 'next' */
    method RunNext(trimmed: string, rejects: Call -> bool) returns (failed: bool)
      modifies this`log
      ensures var (issued, ok) := Issue(Plan(Next, chamado, currentLevel, trimmed), rejects);
        && failed == !ok
        && log == old(log) + Invocations(issued)
                  + (if ok then SuccessNotices(Next, chamado, currentLevel) else [])
    {
      if currentLevel >= 5 {
        failed := RunNextAtTop(trimmed, rejects);
      } else {
        failed := RunNextBelowTop(trimmed, rejects);
      }
    }

    /** From level 5 on: the status update and the note together. */
    method RunNextAtTop(trimmed: string, rejects: Call -> bool) returns (failed: bool)
      requires currentLevel >= 5
      modifies this`log
      ensures var (issued, ok) := Issue(Plan(Next, chamado, currentLevel, trimmed), rejects);
        && failed == !ok
        && log == old(log) + Invocations(issued)
                  + (if ok then SuccessNotices(Next, chamado, currentLevel) else [])
    {
      var status := UpdateStatusFinal(chamado, LevelStatusKey(currentLevel), FinishedStatus);
      var record := UpdateObservacao(chamado, currentLevel, trimmed);
      IssueTwo(status, record, rejects);
      failed := AwaitBoth(status, record, rejects);
      if !failed {
        log := log + [Toast(TicketFinished(chamado))];
      }
    }

    /** Below level 5: the status update, the note and the move up, one
        after the other. */
    method RunNextBelowTop(trimmed: string, rejects: Call -> bool) returns (failed: bool)
      requires currentLevel < 5
      modifies this`log
      ensures var (issued, ok) := Issue(Plan(Next, chamado, currentLevel, trimmed), rejects);
        && failed == !ok
        && log == old(log) + Invocations(issued)
                  + (if ok then SuccessNotices(Next, chamado, currentLevel) else [])
    {
      var status := UpdateStatusFinal(chamado, LevelStatusKey(currentLevel), FinishedStatus);
      var record := UpdateObservacao(chamado, currentLevel, trimmed);
      var advance := NextLevel(chamado, currentLevel + 1, trimmed);
      IssueThree(status, record, advance, rejects);
      ghost var log0 := log;
      failed := Await(status, rejects);
      if !failed {
        failed := Await(record, rejects);
        if !failed {
          failed := Await(advance, rejects);
          assert log == log0 + Invocations([status, record, advance]);
          if !failed {
            log := log + [Toast(LevelStarted(currentLevel + 1))];
          }
        } else {
          assert log == log0 + Invocations([status, record]);
        }
      } else {
        assert log == log0 + Invocations([status]);
      }
    }

    /** case 'previous' */
    method RunPrevious(trimmed: string, rejects: Call -> bool) returns (failed: bool)
      modifies this`log
      ensures var (issued, ok) := Issue(Plan(Previous, chamado, currentLevel, trimmed), rejects);
        && failed == !ok
        && log == old(log) + Invocations(issued)
                  + (if ok then SuccessNotices(Previous, chamado, currentLevel) else [])
    {
      failed := false;
      if currentLevel > 1 {
        var back := PreviousLevel(chamado, currentLevel - 1, trimmed);
        assert Plan(Previous, chamado, currentLevel, trimmed) == [[back]] + [];
        IssueOne(back, [], rejects);
        failed := Await(back, rejects);
        if !failed {
          log := log + [Toast(ReturningTo(currentLevel - 1))];
        }
      }
    }

    /** case 'finish' */
    method RunFinish(trimmed: string, rejects: Call -> bool) returns (failed: bool)
      modifies this`log, this`finalizado
      ensures var (issued, ok) := Issue(Plan(Finish, chamado, currentLevel, trimmed), rejects);
        && failed == !ok
        && log == old(log) + Invocations(issued)
                  + (if ok then SuccessNotices(Finish, chamado, currentLevel) else [])
        && finalizado == (if ok then true else old(finalizado))
    {
      var status := UpdateStatusFinal(chamado, LevelStatusKey(currentLevel), FinishedStatus);
      var record := UpdateObservacao(chamado, currentLevel, trimmed);
      IssueTwo(status, record, rejects);
      failed := AwaitBoth(status, record, rejects);
      if !failed {
        finalizado := true;
        log := log + [Toast(TicketFinished(chamado))];
      }
    }

    /** The try block once both guards have passed: the callbacks, then
        clearing the note and onClose, or the catch block's report. */
    method TryBlock(action: Action, trimmed: string, rejects: Call -> bool)
      modifies this`observacao, this`finalizado, this`log
      ensures var a := Attempt(old(Current()), action, trimmed, rejects);
        && log == old(log) + a.effects
        && observacao == a.observacao
        && finalizado == a.finalizado
    {
      ghost var log0 := log;
      ghost var (issued, ok) := Issue(Plan(action, chamado, currentLevel, trimmed), rejects);
      ghost var settled := Settle(Current(), action, issued, ok);
      var failed := RunCallbacks(action, trimmed, rejects);
      if failed {
        log := log + [LogError, Toast(OperationFailed)];
        AppendAssoc(log0, Invocations(issued), [LogError, Toast(OperationFailed)]);
      } else {
        observacao := "";
        log := log + [Close];
        AppendAssoc4(log0, Invocations(issued), SuccessNotices(action, chamado, currentLevel), [Close]);
      }
    }

    /** The body of handleAction past both guards: the busy flag brackets
        the try block. */
    method Process(action: Action, trimmed: string, rejects: Call -> bool)
      requires !isProcessing
      modifies this`observacao, this`isProcessing, this`finalizado, this`log
      ensures !isProcessing
      ensures var a := Attempt(old(Current()), action, trimmed, rejects);
        && log == old(log) + [SetBusy(true)] + a.effects + [SetBusy(false)]
        && observacao == a.observacao
        && finalizado == a.finalizado
    {
      isProcessing := true;
      log := log + [SetBusy(true)];
      TryBlock(action, trimmed, rejects);
      isProcessing := false;
      log := log + [SetBusy(false)];
    }

    /** handleAction */
    method HandleAction(action: Action, rejects: Call -> bool)
      requires Valid()
      modifies this`observacao, this`isProcessing, this`finalizado, this`log
      ensures Valid()
      ensures var r := ReactionTo(old(Current()), action, rejects);
        && log == old(log) + r.effects
        && observacao == r.observacao
        && finalizado == r.finalizado
    {
      var verdict := ValidateObservacao(observacao);
      if verdict == Empty {
        log := log + [Toast(NoteRequired)];
      } else if verdict == TooShort {
        log := log + [Toast(NoteTooShort)];
      } else if finalizado && action != Previous {
        ReactionToAccepted(Current(), action, rejects);
        isProcessing := true;
        log := log + [SetBusy(true)];
        log := log + [Toast(AlreadyFinalized)];
        isProcessing := false;
        log := log + [SetBusy(false)];
      } else {
        ghost var log0 := log;
        ghost var a := Attempt(Current(), action, Trim(observacao), rejects);
        ReactionToAccepted(Current(), action, rejects);
        AttemptClearsOrKeepsNote(Current(), action, Trim(observacao), rejects);
        Process(action, Trim(observacao), rejects);
        AppendAssoc4(log0, [SetBusy(true)], a.effects, [SetBusy(false)]);
      }
    }
  }
}
