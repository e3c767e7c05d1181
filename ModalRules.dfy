/** The expressions ModernTimerModal.tsx derives from its props and state:
    the per-level status key, the `finalizado` flag, which header the dialog
    shows (or whether it renders at all), and when each action button is
    shown and enabled. */
module ModalRules {
  import opened Wrappers
  import opened Decimal
  import opened Observation

  datatype Action = Next | Previous | Finish

  /** `chamadoData`: an optional record of string fields (a non-string field
      is represented by any string other than "finished"). */
  type TicketData = Option<map<string, string>>

  const FinishedStatus: string := "finished"

  /** The keys of LEVEL_INFO. */
  const LevelInfoKeys: set<int> := {1, 2, 3, 4, 5}

  /** `level${currentLevel}_status` */
  function LevelStatusKey(level: int): string {
    "level" + IntToString(level) + "_status"
  }

  /** Different levels have different status keys, and none of them is the
      overall `statusFinal` field. */
  lemma LevelStatusKeyInjective(a: int, b: int)
    requires LevelStatusKey(a) == LevelStatusKey(b)
    ensures a == b
  {
    var k := LevelStatusKey(a);
    assert k[5..|k| - 7] == IntToString(a);
    assert LevelStatusKey(b)[5..|k| - 7] == IntToString(b);
    IntToStringInjective(a, b);
  }

  lemma LevelStatusKeyNotStatusFinal(level: int)
    ensures LevelStatusKey(level) != "statusFinal"
  {
    assert LevelStatusKey(level)[0] == 'l';
  }

  /** `chamadoData?.[key] === "finished"` */
  predicate FieldFinished(data: TicketData, key: string) {
    match data
    case None => false
    case Some(fields) => key in fields && fields[key] == FinishedStatus
  }

  /** The initial value of `finalizado` and what the effect re-derives it to. */
  function Finalized(data: TicketData, level: int): (b: bool)
    ensures b ==> data.Some?
    ensures b <==> FieldFinished(data, "statusFinal") || FieldFinished(data, LevelStatusKey(level))
  {
    data.Some? &&
    (("statusFinal" in data.value && data.value["statusFinal"] == FinishedStatus) ||
     (LevelStatusKey(level) in data.value && data.value[LevelStatusKey(level)] == FinishedStatus))
  }

  /** Once the host records the status update the dialog sends,
      `updateStatusFinal(chamado, levelStatusKey, "finished")`, the re-derived
      flag holds for that level ... */
  lemma RecordedStatusFinalizes(fields: map<string, string>, level: int)
    ensures Finalized(Some(fields[LevelStatusKey(level) := FinishedStatus]), level)
  {
  }

  /** ... and marking another level finished leaves this level's flag as it was. */
  lemma OtherLevelStatusIrrelevant(fields: map<string, string>, level: int, other: int)
    requires other != level
    ensures Finalized(Some(fields[LevelStatusKey(other) := FinishedStatus]), level)
      == Finalized(Some(fields), level)
  {
    if LevelStatusKey(other) == LevelStatusKey(level) {
      LevelStatusKeyInjective(other, level);
    }
    LevelStatusKeyNotStatusFinal(other);
  }

  /** The demonstration page's ticket: both fields "running", so the dialog
      opens at level 2 not finalized. */
  lemma DemoTicketOpen()
    ensures !Finalized(Some(map["statusFinal" := "running", "level2_status" := "running"]), 2)
  {
    assert LevelStatusKey(2) == "level2_status";
  }

  datatype LevelInfo = FinalizedInfo | StageInfo(level: int)

  /** `levelInfo`: the finished header once finalized, else the LEVEL_INFO
      entry of the current level, absent for a level outside its keys. */
  function LevelInfoOf(finalizado: bool, level: int): (r: Option<LevelInfo>)
    ensures r.None? <==> !finalizado && !(1 <= level <= 5)
    ensures finalizado ==> r == Some(FinalizedInfo)
    ensures !finalizado && 1 <= level <= 5 ==> r == Some(StageInfo(level))
  {
    if finalizado then Some(FinalizedInfo)
    else if level in LevelInfoKeys then Some(StageInfo(level))
    else None
  }

  /** `if (!levelInfo) return null` */
  predicate Renders(finalizado: bool, level: int) {
    LevelInfoOf(finalizado, level).Some?
  }

  /** `!observacao.trim() || observacao.trim().length < 10`, the note test
      the buttons repeat; `.length` counts UTF-16 code units. */
  predicate NoteBlocked(note: string) {
    Trim(note) == [] || Utf16Length(Trim(note)) < MinNoteLength
  }

  /** The buttons block exactly the notes validateObservacao refuses. */
  lemma NoteBlockedIffRefused(note: string)
    ensures NoteBlocked(note) <==> ValidateObservacao(note) != Accepted
  {
  }

  /** The "Observação válida" hint: `observacao.trim().length >= 10`. */
  predicate NoteValidHint(note: string) {
    Utf16Length(Trim(note)) >= MinNoteLength
  }

  lemma NoteValidHintIffAccepted(note: string)
    ensures NoteValidHint(note) <==> ValidateObservacao(note) == Accepted
  {
  }

  /** The counter under the textarea shows `observacao.length` (of 1000) and
      takes the warning colour beyond 900 code units. */
  predicate CounterWarns(note: string) {
    Utf16Length(note) > 900
  }

  /** Up to 450 characters the counter never warns, and beyond 900 it always
      does, whatever the characters. */
  lemma CounterWarningBounds(note: string)
    ensures |note| <= 450 ==> !CounterWarns(note)
    ensures |note| > 900 ==> CounterWarns(note)
  {
  }

  /** The textarea is disabled while processing or once finalized. */
  predicate NoteEditable(isProcessing: bool, finalizado: bool) {
    !isProcessing && !finalizado
  }

  predicate ShowPrevious(level: int, finalizado: bool) {
    level > 1 && !finalizado
  }

  predicate PreviousDisabled(note: string, isProcessing: bool) {
    NoteBlocked(note) || isProcessing
  }

  predicate FinishDisabled(note: string, isProcessing: bool, finalizado: bool) {
    NoteBlocked(note) || isProcessing || finalizado
  }

  predicate NextDisabled(note: string, isProcessing: bool, finalizado: bool) {
    NoteBlocked(note) || isProcessing || finalizado
  }

  /** Whether the user can trigger the action: its button is shown and
      enabled. */
  predicate ActionAvailable(action: Action, level: int, finalizado: bool, note: string, isProcessing: bool) {
    match action
    case Previous => ShowPrevious(level, finalizado) && !PreviousDisabled(note, isProcessing)
    case Finish => !FinishDisabled(note, isProcessing, finalizado)
    case Next => !NextDisabled(note, isProcessing, finalizado)
  }

  /** An action the user can trigger has a valid note, nothing in flight and a
      ticket that is not finalized; on a dialog that renders, the level is
      then one of 1..5.  Previous needs a level above 1 besides. */
  lemma AvailableActionPreconditions(action: Action, level: int, finalizado: bool, note: string, isProcessing: bool)
    requires ActionAvailable(action, level, finalizado, note, isProcessing)
    ensures ValidateObservacao(note) == Accepted && !isProcessing && !finalizado
    ensures Renders(finalizado, level) ==> 1 <= level <= 5
    ensures action == Previous ==> level > 1
  {
    NoteBlockedIffRefused(note);
  }

  datatype NextFace = FinishedFace | ConcludeFinalFace | AdvanceFace(level: int)

  /** What the Next button shows: "Finalizado" once finalized, "Concluir
      Final" from level 5 on, otherwise the current level's next action. */
  function NextButtonFace(level: int, finalizado: bool): (f: NextFace)
    ensures f == FinishedFace <==> finalizado
    ensures f == ConcludeFinalFace <==> !finalizado && level >= 5
    ensures f.AdvanceFace? <==> !finalizado && level < 5
  {
    if finalizado then FinishedFace
    else if level >= 5 then ConcludeFinalFace
    else AdvanceFace(level)
  }

  /** The Next button's `success` variant: `currentLevel >= 5 || finalizado`. */
  predicate NextButtonSuccess(level: int, finalizado: bool) {
    level >= 5 || finalizado
  }

  lemma NextButtonSuccessIffNotAdvancing(level: int, finalizado: bool)
    ensures NextButtonSuccess(level, finalizado) <==> !NextButtonFace(level, finalizado).AdvanceFace?
  {
  }
}
