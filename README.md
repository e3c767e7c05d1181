# Escalation dialog: a verified model

This project models the core of *escalate-gracefully*, a support-desk front end.
An operator works a ticket (`chamado`) through five escalation levels under a
20-minute countdown. At each level they write an observation note, then move
the ticket up a level, back a level, or finish it. The modelled parts are:

- the dialog's state machine (`ModernTimerModal.tsx`): validating the note, the
  `finalizado` flag, whether the dialog renders, the button rules and
  `handleAction`;
- the countdown panel (`timer-display.tsx`): severity bands, colours, badge,
  critical class and the depleting bar;
- the level stepper (`progress-indicator.tsx`): which steps are completed,
  active or pending, and the progress line;
- the page's `formatTime` (`Index.tsx`).

Modules:

- `Decimal`: the decimal rendering `toString` gives an integral number (below
  10^21 in magnitude and exact as a double), and its inverse on digit strings.
- `Clock`: `formatTime`, with JavaScript's `Math.floor`, truncating `%` and
  `padStart` written out, and a parser that reads the text back.
- `TimerDisplay`, `ProgressIndicator`: the two display components, as pure
  functions of their props.
- `Observation`: `String.prototype.trim` over ECMAScript's exact whitespace set,
  and `validateObservacao`.
- `ModalRules`: the expressions the dialog derives from its props and state.
- `EscalationModal`: `handleAction`. It is specified by the function `ReactionTo`,
  which maps the state before an action to the effects issued and the state
  after. The class `TimerModal` holds the dialog's props and state; its method
  `HandleAction` performs the same steps one by one and is proved equal to
  `ReactionTo`.

The caller's callbacks are not code the model can see. Each one becomes an
`Invoke` entry in an effect log. Whether a callback fails is decided by an
oracle `rejects` that the caller supplies. The log also records the busy flag
going up and down, each toast (as a `Notice`), the error log line and
`onClose`.

Lengths are JavaScript's `.length`, which counts UTF-16 code units: a
character beyond the Basic Multilingual Plane (an emoji, say) counts twice
(`Observation.Utf16Length`).

Two behaviours of the code are easy to misread; the model follows the code:

- `next` at level 5 sends the status update and the note but never sets
  `finalizado` itself. The flag is set only by `finish`, or later by the
  host's data (`NextAtTop`).
- `previous` at level 1 calls nothing, yet still clears the note and closes the
  dialog (`PreviousAtBottom`).

## Model

| member | source | states |
|---|---|---|
| Decimal.NatToString | src/pages/Index.tsx:22 | `toString` of a non-negative integer is a non-empty digit string with no leading zero; it has one digit exactly below 10 and at most two exactly below 100 |
| Decimal.IntToString | src/components/corporate/ModernTimerModal.tsx:104 | the rendering of an integer starts with '-' exactly when it is negative, and is never empty |
| Decimal.ParseIntToString | src/components/corporate/ModernTimerModal.tsx:104 | after the optional sign the rendering is the digits of the magnitude |
| Decimal.ParseNatToString | src/pages/Index.tsx:22 | reading a rendered number back gives the number |
| Decimal.IntToStringInjective | src/components/corporate/ModernTimerModal.tsx:104 | distinct integers render differently, so distinct levels get distinct keys |
| Clock.FloorDiv | src/pages/Index.tsx:20 | `Math.floor(a / b)` is the quotient q with q*b <= a < q*b + b |
| Clock.JsRem | src/pages/Index.tsx:21 | JavaScript's `%`: a = b*trunc(a/b) + r, \|r\| < b, and r has the dividend's sign |
| Clock.PadStart | src/pages/Index.tsx:22 | `padStart` gives length max(\|s\|, width), ends with s, and fills the front with the fill character |
| Clock.FormatTime | src/pages/Index.tsx:19-23 | `formatTime`: the minutes field, ':', the seconds field; at least five characters with ':' right after the minutes (its meaning is FormatTimeRoundTrip and FormatTimeLayout) |
| Clock.ParseClock | src/pages/Index.tsx:19-23 | reads "M:S" back: both fields non-empty digit strings around the first ':' (the inverse of formatTime, by FormatTimeRoundTrip) |
| Clock.Pad2NatToString | src/pages/Index.tsx:22 | padding a numeral to two places keeps its digits and value; below 100 it is exactly two characters, from 100 on it is not padded |
| Clock.FormatTimeNonNegative | src/pages/Index.tsx:19-23 | for t >= 0 the text is pad2(t div 60) ":" pad2(t mod 60) |
| Clock.FormatTimeLayout | src/pages/Index.tsx:19-23 | both fields are digits; seconds are two characters; minutes are two below 6000 s and three or more from 6000 s on; the only ':' is between them |
| Clock.FormatTimeFixedWidth | src/pages/Index.tsx:19-23 | below 6000 s the text is five characters with ':' in the middle |
| Clock.ParseJoined | src/pages/Index.tsx:22 | two digit strings joined by ':' split back into the same halves |
| Clock.FormatTimeRoundTrip | src/pages/Index.tsx:19-23 | the text parses back to (t div 60, t mod 60), which rebuilds t, with seconds below 60 |
| Clock.FormatTimeZero | src/pages/Index.tsx:19-23 | zero seconds reads "00:00" |
| Clock.FormatTimeNegativeExample | src/pages/Index.tsx:20-22 | a negative input gives a signed text: -61 reads "-2:-1" |
| TimerDisplay.StatusOf | src/components/ui/timer-display.tsx:15-24 | each band in both directions: expired iff t <= 0, critical iff 0 < t <= 300, warning iff 300 < t <= 600, normal iff t > 600 |
| TimerDisplay.GetTimerStatus | src/components/ui/timer-display.tsx:19-24 | getTimerStatus: the icon, text and colour of the band StatusOf picks (per band by ColorBands) |
| TimerDisplay.View | src/components/ui/timer-display.tsx:20-23 | the icon, status text and colour each band returns |
| TimerDisplay.SeverityMonotone | src/components/ui/timer-display.tsx:15-24 | more time left never gives a more severe band |
| TimerDisplay.ColorBands | src/components/ui/timer-display.tsx:19-24 | destructive colour iff t <= 300, warning iff 300 < t <= 600, primary iff t > 600; the alert icon iff t <= 300 |
| TimerDisplay.BadgeOf | src/components/ui/timer-display.tsx:81-84 | the badge's own chain over the expired, critical and warning flags (agrees with StatusOf by BadgeAgreesWithStatus) |
| TimerDisplay.BadgeText | src/components/ui/timer-display.tsx:81-84 | the text each badge shows |
| TimerDisplay.BadgeAgreesWithStatus | src/components/ui/timer-display.tsx:81-84 | the badge's own chain of tests always names the same band as the status |
| TimerDisplay.CriticalClass | src/components/ui/timer-display.tsx:29-31 | the `timer-critical` class is on iff t <= 300, i.e. iff the band is expired or critical |
| TimerDisplay.DisplayedSeconds | src/components/ui/timer-display.tsx:69 | the value passed to formatTime is never negative; it is t for t >= 0 and 0 otherwise |
| TimerDisplay.DisplayedTextWellFormed | src/components/ui/timer-display.tsx:69 | the displayed digits always parse back to the displayed seconds; an overdue timer reads "00:00" |
| TimerDisplay.ProgressWidth | src/components/ui/timer-display.tsx:101-103 | the bar width is within 0..100: 0 for t <= 0, 100 from 1200 s on, t*100/1200 in between |
| TimerDisplay.ProgressWidthMonotone | src/components/ui/timer-display.tsx:101-103 | the bar never grows as time runs out |
| TimerDisplay.DemoTimer | src/pages/Index.tsx:12 | the demonstration page's 900 seconds are in the normal band with the normal badge, read "15:00", and fill the bar to 75% |
| ProgressIndicator.StateOf | src/components/ui/progress-indicator.tsx:44-46 | completed iff id < current, active iff id = current, pending iff id > current |
| ProgressIndicator.ExactlyOneFlag | src/components/ui/progress-indicator.tsx:44-46 | exactly one of the three flags holds for every step |
| ProgressIndicator.IconOf | src/components/ui/progress-indicator.tsx:61-67 | check when completed, clock when active, circle otherwise (per state by StepPresentation) |
| ProgressIndicator.SubLabels | src/components/ui/progress-indicator.tsx:84-94 | "Em andamento" when active, then "Concluído" when completed (per state by StepPresentation) |
| ProgressIndicator.StepPresentation | src/components/ui/progress-indicator.tsx:61-67 | completed shows a check and "Concluído", active a clock and "Em andamento", pending a circle and no sub-label (sub-labels at lines 84-94) |
| ProgressIndicator.StepCounts | src/components/ui/progress-indicator.tsx:43-46 | over levels 1..n: clamp(current-1) completed, one active when current is in range, clamp(n-current) pending |
| ProgressIndicator.LevelCounts | src/components/ui/progress-indicator.tsx:9-15 | for current in 1..5: exactly one active, current-1 completed, 5-current pending |
| ProgressIndicator.OutOfRangeCounts | src/components/ui/progress-indicator.tsx:43-46 | below 1 all five are pending, above 5 all five completed, and none is active |
| ProgressIndicator.LineWidth | src/components/ui/progress-indicator.tsx:35-37 | the line is never negative: 0 up to level 1, (current-1)*25 from level 1 on |
| ProgressIndicator.LineWidthEnds | src/components/ui/progress-indicator.tsx:35-37 | 0% at level 1, 100% at level 5, 125% at level 6 (there is no upper clamp) |
| ProgressIndicator.LineWidthStep | src/components/ui/progress-indicator.tsx:35-37 | each level forward adds 25% |
| Observation.LeadingSpaceSpec | src/components/corporate/ModernTimerModal.tsx:128 | the run `trim` drops at the front is whitespace, and a non-space follows it |
| Observation.TrailingSpaceSpec | src/components/corporate/ModernTimerModal.tsx:128 | the run `trim` drops at the back is whitespace, and a non-space precedes it |
| Observation.Trim | src/components/corporate/ModernTimerModal.tsx:153 | `trim`: never longer than the note; what it cuts is TrimIsCore and TrimEnds |
| Observation.TrimIsCore | src/components/corporate/ModernTimerModal.tsx:153 | the trimmed note is a slice of the note with only whitespace cut off on either side |
| Observation.TrimEnds | src/components/corporate/ModernTimerModal.tsx:153 | a non-empty trimmed note neither starts nor ends with whitespace |
| Observation.TrimEmptyIffBlank | src/components/corporate/ModernTimerModal.tsx:128 | the trimmed note is empty iff the note is all whitespace |
| Observation.TrimIdempotent | src/components/corporate/ModernTimerModal.tsx:153 | trimming twice equals trimming once |
| Observation.Utf16Length | src/components/corporate/ModernTimerModal.tsx:136 | `.length` in UTF-16 code units: between the number of characters and twice it, and 0 exactly for the empty string |
| Observation.Utf16LengthAppend | src/components/corporate/ModernTimerModal.tsx:136 | code units add up over a concatenation |
| Observation.Utf16LengthBmp | src/components/corporate/ModernTimerModal.tsx:136 | within the Basic Multilingual Plane `.length` is the number of characters |
| Observation.ValidateObservacao | src/components/corporate/ModernTimerModal.tsx:127-145 | refused as empty iff all whitespace; refused as too short iff not blank but the trimmed note is under 10 UTF-16 code units; accepted iff it has at least 10 |
| Observation.FiveAstralCharactersAccepted | src/components/corporate/ModernTimerModal.tsx:136 | five emoji are ten code units, so the note is accepted |
| Observation.VerdictIgnoresPadding | src/components/corporate/ModernTimerModal.tsx:127-145 | whitespace added around the note never changes the verdict |
| Observation.TrimPadding | src/components/corporate/ModernTimerModal.tsx:153 | whitespace added around the note never changes its trimmed form |
| ModalRules.LevelStatusKeyInjective | src/components/corporate/ModernTimerModal.tsx:104 | two levels with the same `level{N}_status` key are the same level |
| ModalRules.LevelStatusKeyNotStatusFinal | src/components/corporate/ModernTimerModal.tsx:104-106 | no level's key is the `statusFinal` field |
| ModalRules.LevelStatusKey | src/components/corporate/ModernTimerModal.tsx:104 | `level${currentLevel}_status` (one key per level by LevelStatusKeyInjective, never `statusFinal`) |
| ModalRules.Finalized | src/components/corporate/ModernTimerModal.tsx:104-113 | finalized iff the data exists and `statusFinal`, or the current level's status field, is "finished" |
| ModalRules.RecordedStatusFinalizes | src/components/corporate/ModernTimerModal.tsx:168 | once the host stores the status update the dialog sends, the re-derived flag holds for that level |
| ModalRules.OtherLevelStatusIrrelevant | src/components/corporate/ModernTimerModal.tsx:104-113 | marking another level finished leaves this level's flag as it was |
| ModalRules.DemoTicketOpen | src/pages/Index.tsx:9-17 | the demonstration ticket (both fields "running", level 2) opens not finalized |
| ModalRules.LevelInfoOf | src/components/corporate/ModernTimerModal.tsx:115-125 | the finished header iff finalized; otherwise the level's entry for levels 1..5; nothing (so no render, line 227) iff not finalized and the level is outside 1..5 |
| ModalRules.Renders | src/components/corporate/ModernTimerModal.tsx:227 | the dialog renders exactly when there is a header to show (`if (!levelInfo) return null`; both directions by LevelInfoOf) |
| ModalRules.NoteBlocked | src/components/corporate/ModernTimerModal.tsx:363 | the buttons' note test: trimmed note empty or under 10 code units (exactly a refusal, by NoteBlockedIffRefused) |
| ModalRules.NoteBlockedIffRefused | src/components/corporate/ModernTimerModal.tsx:363 | the buttons' note test blocks exactly the notes validateObservacao refuses |
| ModalRules.NoteValidHint | src/components/corporate/ModernTimerModal.tsx:343 | the "Observação válida" hint's test: trimmed note of at least 10 code units |
| ModalRules.NoteValidHintIffAccepted | src/components/corporate/ModernTimerModal.tsx:343 | the "valid note" hint shows exactly for the notes validateObservacao accepts |
| ModalRules.CounterWarns | src/components/corporate/ModernTimerModal.tsx:339 | the counter takes the warning colour when the note is over 900 UTF-16 code units |
| ModalRules.CounterWarningBounds | src/components/corporate/ModernTimerModal.tsx:339-341 | the counter never warns up to 450 characters and always warns beyond 900, whatever the characters |
| ModalRules.NoteEditable | src/components/corporate/ModernTimerModal.tsx:332 | the textarea accepts input only while nothing is in flight and the ticket is not finalized |
| ModalRules.ShowPrevious | src/components/corporate/ModernTimerModal.tsx:358 | the Previous button is shown above level 1 on a ticket not finalized |
| ModalRules.PreviousDisabled | src/components/corporate/ModernTimerModal.tsx:363 | Previous is disabled by a blocked note or an action in flight |
| ModalRules.FinishDisabled | src/components/corporate/ModernTimerModal.tsx:379 | Finish is disabled by a blocked note, an action in flight or a finalized ticket |
| ModalRules.NextDisabled | src/components/corporate/ModernTimerModal.tsx:397 | Next is disabled by a blocked note, an action in flight or a finalized ticket |
| ModalRules.ActionAvailable | src/components/corporate/ModernTimerModal.tsx:358-397 | an action can be triggered when its button is shown and enabled (consequences in AvailableActionPreconditions) |
| ModalRules.AvailableActionPreconditions | src/components/corporate/ModernTimerModal.tsx:358-397 | an enabled, shown button implies a valid note, nothing in flight and a ticket not finalized; on a rendered dialog the level is 1..5; Previous implies a level above 1 |
| ModalRules.NextButtonFace | src/components/corporate/ModernTimerModal.tsx:400-420 | "Finalizado" iff finalized, "Concluir Final" iff not finalized and level >= 5, the level's next action otherwise |
| ModalRules.NextButtonSuccess | src/components/corporate/ModernTimerModal.tsx:394 | the Next button's `success` variant: from level 5 on or once finalized |
| ModalRules.NextButtonSuccessIffNotAdvancing | src/components/corporate/ModernTimerModal.tsx:394-420 | the Next button takes the success style exactly when it does not offer to advance |
| EscalationModal.AnyRejected | src/components/corporate/ModernTimerModal.tsx:167-170 | a group of awaited calls fails iff one of its calls fails |
| EscalationModal.Plan | src/components/corporate/ModernTimerModal.tsx:164-210 | the callbacks each action awaits, group by group, with their arguments (per action by ProceedNextBelowTop, NextAtTop, PreviousAboveBottom, PreviousAtBottom, FinishOutcome) |
| EscalationModal.Issue | src/components/corporate/ModernTimerModal.tsx:164-210 | awaiting the groups in turn: a failing group stops the rest (IssueOne, IssueTwo, IssueThree) |
| EscalationModal.SuccessNotices | src/components/corporate/ModernTimerModal.tsx:171-208 | the toast each successful action shows |
| EscalationModal.Settle | src/components/corporate/ModernTimerModal.tsx:204-221 | after the callbacks: success toast, cleared note and onClose, or the catch block's report (SettleCalls, SettleSignals, SettleShape) |
| EscalationModal.ReactionTo | src/components/corporate/ModernTimerModal.tsx:147-225 | handleAction as a function of the state it starts from (its behaviour in the lemmas below; HandleAction is proved equal to it) |
| EscalationModal.CallsOfInvocations | src/components/corporate/ModernTimerModal.tsx:164-209 | reading the callbacks back out of the log entries for a list of calls gives that list |
| EscalationModal.IssueOne | src/components/corporate/ModernTimerModal.tsx:176-178 | an awaited call that fails stops the ones after it |
| EscalationModal.IssueTwo | src/components/corporate/ModernTimerModal.tsx:167-170 | `Promise.all` over two calls issues both and fails iff either fails |
| EscalationModal.IssueThree | src/components/corporate/ModernTimerModal.tsx:176-178 | three calls awaited in turn stop at the first failure |
| EscalationModal.ReactionToAccepted | src/components/corporate/ModernTimerModal.tsx:148-162 | past validation, the busy flag brackets either the "already finalized" toast or the try block |
| EscalationModal.SettleCalls | src/components/corporate/ModernTimerModal.tsx:164-224 | the callbacks in the log are exactly the ones issued |
| EscalationModal.SettleSignals | src/components/corporate/ModernTimerModal.tsx:212-221 | the dialog closes iff all calls succeeded, and the failure toast shows iff one failed |
| EscalationModal.SettleShape | src/components/corporate/ModernTimerModal.tsx:204-224 | in addition, the note clears only on success, and the flag is set only by a successful Finish |
| EscalationModal.ProceedShape | src/components/corporate/ModernTimerModal.tsx:150-224 | the same facts for the planned calls of any action past both guards |
| EscalationModal.RefusedNoteIsInert | src/components/corporate/ModernTimerModal.tsx:127-148 | a refused note shows one toast (empty or too short), calls nothing, never raises the busy flag, does not close, and keeps note and flag |
| EscalationModal.FinalizedRefusesAdvance | src/components/corporate/ModernTimerModal.tsx:155-162 | on a finalized ticket Next and Finish call nothing, show the "already finalized" toast, stay open and end with the busy flag lowered |
| EscalationModal.ProceedNextBelowTop | src/components/corporate/ModernTimerModal.tsx:175-185 | below level 5 Next issues the status update, the note and the move up, once each, in order, stopping at the first failure |
| EscalationModal.NextBelowTop | src/components/corporate/ModernTimerModal.tsx:165-186 | the same for the dialog's own note; closes and clears iff all three succeed; the flag stays down |
| EscalationModal.NextAtTop | src/components/corporate/ModernTimerModal.tsx:165-174 | at level 5 or above Next sends the status update and the note, never moves level, and never sets the flag |
| EscalationModal.PreviousAboveBottom | src/components/corporate/ModernTimerModal.tsx:188-197 | above level 1 Previous sends only the move down, even on a finalized ticket; closes iff it succeeds; the flag is unchanged |
| EscalationModal.PreviousAtBottom | src/components/corporate/ModernTimerModal.tsx:188-197 | at level 1 Previous calls nothing but still clears the note and closes (lines 212-213) |
| EscalationModal.FinishOutcome | src/components/corporate/ModernTimerModal.tsx:199-224 | Finish sends the status update and the note; on success it sets the flag, clears the note and closes; on failure flag and note are kept, the dialog stays open and the error toast shows |
| EscalationModal.ProceedBusyBracketed | src/components/corporate/ModernTimerModal.tsx:150-224 | past both guards the busy flag is raised first, lowered last, and not touched in between |
| EscalationModal.BusyBracketed | src/components/corporate/ModernTimerModal.tsx:148-224 | whenever the busy flag is raised, it is raised first and lowered last, and nowhere in between |
| EscalationModal.CloseIffCleared | src/components/corporate/ModernTimerModal.tsx:212-221 | the dialog closes iff the action changes the note, which is then cleared; never after a failure report; on a finalized ticket only Previous closes it |
| EscalationModal.AvailableActionRuns | src/components/corporate/ModernTimerModal.tsx:358-397 | an action the user can trigger on a rendered dialog raises the busy flag, never hits the "already finalized" guard, and ends either closed or reporting the failure |
| EscalationModal.DemoAdvance | src/pages/Index.tsx:9-35 | the demonstration ticket at level 2 with the note "Diagnóstico concluído", when every callback succeeds, sends `level2_status` finished, the note and the move to level 3, announces level 3 and closes with the note cleared |
| EscalationModal.TimerModal.constructor | src/components/corporate/ModernTimerModal.tsx:101-107 | mounting gives an empty note, nothing in flight, and the flag derived from the ticket data |
| EscalationModal.TimerModal.Edit | src/components/corporate/ModernTimerModal.tsx:325-334 | the textarea changes the note only while not processing and not finalized |
| EscalationModal.TimerModal.Receive | src/components/corporate/ModernTimerModal.tsx:109-113 | new props re-derive the flag exactly when the data or the level's status key changed; otherwise the flag is kept |
| EscalationModal.TimerModal.Await | src/components/corporate/ModernTimerModal.tsx:176-178 | one awaited callback is logged and fails as the oracle says |
| EscalationModal.TimerModal.AwaitBoth | src/components/corporate/ModernTimerModal.tsx:167-170 | `Promise.all` logs both callbacks and fails iff either fails |
| EscalationModal.TimerModal.RunCallbacks | src/components/corporate/ModernTimerModal.tsx:164-210 | the switch logs the planned calls up to the first failure, then the success toast on success; Finish sets the flag on success |
| EscalationModal.TimerModal.RunNext | src/components/corporate/ModernTimerModal.tsx:165-186 | `case 'next'` matches the plan for Next at every level |
| EscalationModal.TimerModal.RunNextAtTop | src/components/corporate/ModernTimerModal.tsx:166-174 | from level 5 on: status update and note together, then the "finished" toast |
| EscalationModal.TimerModal.RunNextBelowTop | src/components/corporate/ModernTimerModal.tsx:175-185 | below level 5: three awaits in turn, then the "level started" toast |
| EscalationModal.TimerModal.RunPrevious | src/components/corporate/ModernTimerModal.tsx:188-197 | `case 'previous'` matches the plan for Previous |
| EscalationModal.TimerModal.RunFinish | src/components/corporate/ModernTimerModal.tsx:199-209 | `case 'finish'` matches the plan for Finish and sets the flag on success |
| EscalationModal.TimerModal.TryBlock | src/components/corporate/ModernTimerModal.tsx:164-221 | the try block's log, note and flag are the attempt's |
| EscalationModal.TimerModal.Process | src/components/corporate/ModernTimerModal.tsx:150-224 | the busy flag goes up before the try block and down after it |
| EscalationModal.TimerModal.HandleAction | src/components/corporate/ModernTimerModal.tsx:147-225 | one call appends exactly `ReactionTo`'s effects to the log and leaves the note and flag `ReactionTo` gives, with nothing in flight afterwards |

## Left out

- JSX layout, CSS classes, `lucide` icons other than the ones the model names,
  and the header badge. Only the parts that carry a decision are modelled:
  colours, icons, badge and sub-label texts, widths and button states.
- Toast titles and descriptions. They appear only as the `Notice` they announce.
  LEVEL_INFO titles and descriptions are left out, so `StageInfo(level)` stands
  for the entry.
- `console.error` is a `LogError` entry without the error value, and
  `console.log` in the page's mock callbacks is not modelled.
- React scheduling and rendering. Each action or prop change is one atomic step
  of `TimerModal`. The note shown in a render and the note `handleAction` reads
  are taken to be the same.
- The effect's dependency check compares `chamadoData` by reference. The model
  (`TimerModal.Receive`) compares it by value, so a new object with equal fields
  does not re-derive `finalizado` here.
- Asynchrony. Callbacks complete in order, and nothing else happens while one
  is awaited.
- `Promise.all` over two callbacks is modelled as issuing both, then failing if
  either failed. A callback that throws before returning its promise would keep
  the second call from being issued in the source; that case is not
  distinguished.
- Numbers are integers. `remainingTime` and `currentLevel` as non-integer
  JavaScript numbers, NaN and infinities are not modelled. Nor are the limits
  of JavaScript's doubles: integers beyond 2^53 that a double cannot hold
  exactly, and the exponent notation `toString` switches to from 10^21 on
  (`(1e21).toString()` is "1e+21"; `Decimal.NatToString` writes 22 digits). Percent widths are
  exact rationals, not floating point.
- `isOpen`, the dialog's close button and `onOpenChange` only call `onClose`,
  which belongs to the host, and are not modelled.
- The countdown that decrements `remainingTime` is owned by the host. It is not
  part of the core and is not modelled.
- The page's modal wiring (`isModalOpen`) is left out. The page passes no `onPreviousLevel`, so `previous` above
  level 1 would fail there; the model leaves the callbacks to the caller.
- EscalationModal.Settle: `onClose` is a host callback that the model takes
  never to throw; `Close` is logged as an effect that cannot fail. In the
  source, an `onClose` that throws after every callback succeeded would leave
  the note cleared (and, for Finish, the flag set) and then run the catch
  block: the error log line and the failure toast. So `SettleSignals` and
  `CloseIffCleared` (the dialog closes exactly on success, and the failure toast
  shows only when a callback failed) hold only under that assumption. The same
  assumption covers `toast`, which is also taken never to throw.
- EscalationModal.TimerModal.Edit: requires the text to fit the textarea's
  `maxLength` of 1000 UTF-16 code units, which the browser enforces before
  `onChange` fires.
