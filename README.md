# Straw pallet ledgers, leak gate and station logic — a Dafny model

The Mu2e tracker factory builds detector straws on pallets of 24. Each
pallet has a ledger, `CPALnnnn.csv`, under a `CPALIDnn` directory. Every
station appends one csv line per operation:

    timestamp, step, straw1, status1, ..., straw24, status24, worker...

This project models the code that reads and writes those ledgers:

- **Genealogy check** (`CheckStraw`, `guis/straw/checkstraw.py`).
  - `strawPass` walks a pallet's history. A line of the step sets the flag
    when the straw is followed by `"P"`.
  - An `adds` line overwrites the flag with the verdict on another pallet or
    on a replacement straw, by recursion.
  - `palletPass`, `strawPassAll`, `palletPassAll` and `check` aggregate over
    straws and steps. `check` raises `StrawFailedError` with the display
    names of the failed steps.
- **Leak gate and consolidation** (`Consolidate`,
  `guis/straw/consolidate/consolidate_straws.py`).
  - `rateIsAcceptable` is the threshold gate.
  - `checkSummaryFile` picks the latest test of a straw in
    `LeakTestResults.csv`.
  - `checkAndRecord` and `passedLeakTest` involve operator overrides and
    manual entries.
  - `finalizeStraws` replaces straws in slots of the list.
  - `run` scans straws in and appends the `lasr` and `leng` lines.
- **Laser-cut station** (`Laser`, `guis/straw/laser/LazerGUI.py`).
  - The barcode-word recogniser in `keyPressEvent`.
  - The `step` field moving 0 → 1 → 2 → 0.
  - `verifyPalletNum`.
  - The removal decision of `interpretEditPallet`.
  - The parity cut choice.
  - The nearest-humidity program.
  - The two ledger lines `saveData` appends.
- **CO2 end-piece station** (`CO2`, `guis/straw/co2/CO2GUI.py`).
  - The batch-code validators.
  - The `initialData` gate in front of the stopwatch.
  - The `C-O2` ledger line.
  - The stopwatch's h/m/s display.
- **Leak refit** (`Refit`, `guis/straw/leak/refit_straw_leak.py`): the
  `truncate` slice rule and the chamber number read from a file name.
- **Panel leak plot** (`PlotLeak`, `guis/panel/leak/PlotLeakRate.py`).
  - The default fit start.
  - The `get_time` elapsed-time parser.
  - The panel ID found in a file name.
  - The strict fit window and its defaults.

Two shared modules support these:

- `Builtins` holds the Python builtins on ASCII text: `upper`, `strip`,
  `split`, `join`, slicing with clamping, `isnumeric`, `int()` and `str()`.
  Exceptions are a `Result`.
- `Ledger` covers csv rows, the non-empty history, record layouts, the
  station line and the pallet-number check. The laser and CO2 stations share
  the same code for these.

Conventions:

- Python exceptions that escape are `Err(IndexError | ValueError | KeyError |
  RecursionError | AttributeError | OverflowError | FileNotFoundError)`.
- A pallet file is its text where a station writes it, and its csv rows
  where `strawPass` reads it.
- Prompts, dialogs, the clock and the current year are parameters:
  - the operator's answers;
  - `datetime.now()` already formatted;
  - the `strptime`/`float()`/`format` oracles in `Consolidate.Env`.
- The GUI classes are Dafny classes whose methods update the same fields.
  Each method is proved equal to a function of the old state.
- The `strawPass` recursion carries a `fuel` budget that stands for Python's
  recursion limit. Exhausting it is `Err(RecursionError)`.
- The pallet-number check and the epoxy-batch check are modelled twice:
  - as written, with the input that shows the defect;
  - corrected, as the rest of the model uses them (see "## Findings").

## Model

| member | source | states |
|---|---|---|
| CheckStraw.StrawVerdict | guis/straw/checkstraw.py:19-51 | no frames left raises RecursionError; a pallet with no ledger leaves the flag False |
| CheckStraw.StrawPass | guis/straw/checkstraw.py:19-51 | the method with its loops over the history computes exactly StrawVerdict |
| CheckStraw.ScanStep | guis/straw/checkstraw.py:32-35 | the loop over a line of the step computes the step-line scan (flag set on straw followed by "P", IndexError past the end) |
| CheckStraw.ScanAdds | guis/straw/checkstraw.py:36-49 | the loop over an "adds" line computes the adds-line scan, recursing into pallet or replacement straw |
| CheckStraw.StepLineScan | guis/straw/checkstraw.py:32-35 | a step line ORs the "straw followed by P" test into the flag, so it can set but never clear it; a straw in the last field raises IndexError |
| CheckStraw.NoAddsScan | guis/straw/checkstraw.py:28-35 | with no "adds" line, the scan from line i equals the flag OR some later step line marking the straw (or the first IndexError) |
| CheckStraw.NoAddsVerdict | guis/straw/checkstraw.py:19-35 | with no "adds" line, strawPass is True iff some non-empty line of the step has the straw immediately followed by "P" (IndexError on short lines) |
| CheckStraw.ScanHistoryShift | guis/straw/checkstraw.py:31 | lines appended to a history are scanned after it, starting from the flag it leaves |
| CheckStraw.ScanHistoryAppend | guis/straw/checkstraw.py:31 | the scan of x + y is the scan of y started with the result of x (errors propagate) |
| CheckStraw.MarkingLine | guis/straw/checkstraw.py:31-35 | a step line that marks the straw sets the flag to True, or raises IndexError when the straw is also its last field |
| CheckStraw.TrailingMarkPasses | guis/straw/checkstraw.py:31-35 | a final step line marking the straw makes the verdict anything but False, even when the straw is also its last field |
| CheckStraw.TrailingPairPasses | guis/straw/checkstraw.py:31-35 | a final lasr line then leng line marking the straw make the verdict at either step anything but False, whatever their last fields |
| CheckStraw.StationRecordMarks | guis/straw/checkstraw.py:34 | in a station record the straw of slot k is immediately followed by "P" |
| CheckStraw.TwoStepLines | guis/straw/checkstraw.py:31-35 | scanning a marking lasr line and leng line yields Ok(true) whatever the flag before |
| CheckStraw.PalletIsNotStraw | guis/straw/checkstraw.py:38-47 | a field starting "CPAL" never also starts "ST", so the two adds branches exclude each other |
| CheckStraw.AddsLineWithoutStraw | guis/straw/checkstraw.py:36-49 | an "adds" line not holding the straw leaves the flag unchanged |
| CheckStraw.AddsLineSkip | guis/straw/checkstraw.py:37 | fields before the straw's position do not affect the adds scan |
| CheckStraw.AddsToPalletOverwrites | guis/straw/checkstraw.py:38-43 | straw followed by a CPAL field: the outcome is the straw's verdict on that pallet, whatever the previous flag |
| CheckStraw.AddsToStrawOverwrites | guis/straw/checkstraw.py:44-49 | straw followed by an ST field: the outcome is the new straw's verdict on the same pallet, whatever the previous flag |
| CheckStraw.LaterAddsClearsPass | guis/straw/checkstraw.py:36-43 | a passed straw later moved by an "adds" line to a pallet without a ledger ends up False (overwrite, not OR) |
| CheckStraw.SelfReplacementExhaustsStack | guis/straw/checkstraw.py:44-49 | a straw replaced by itself recurses until any recursion limit is exhausted: there is no cycle guard |
| CheckStraw.Gather | guis/straw/checkstraw.py:81-82 | evaluating calls in order succeeds iff every call succeeds, giving their values in order |
| CheckStraw.GatherFirstError | guis/straw/checkstraw.py:81-82 | when gathering raises, the exception is the first call's that raised, all earlier calls having succeeded |
| CheckStraw.GatherAfterError | guis/straw/checkstraw.py:81-82 | once call i raises after successful earlier calls, later calls do not change the escaping exception |
| CheckStraw.AllResults | guis/straw/checkstraw.py:83-85 | `if results == []: False` then `all(results)`: True iff non-empty and every value True; errors propagate |
| CheckStraw.StrawFields | guis/straw/checkstraw.py:78-80 | the straws are exactly the fields of the line starting with "ST" |
| CheckStraw.StrawResults | guis/straw/checkstraw.py:81-82 | one strawPass result per straw, in order |
| CheckStraw.StepResultsOfStraw | guis/straw/checkstraw.py:57-59 | one strawPass result per step, in order |
| CheckStraw.StepResultsOfPallet | guis/straw/checkstraw.py:90-92 | one palletPass result per step, in order |
| CheckStraw.PalletVerdictMeaning | guis/straw/checkstraw.py:64-85 | palletPass: False without a ledger, IndexError on a ledger with no non-empty line, False when the last line has no straw, else True iff every "ST" field of the last line passes |
| CheckStraw.StrawResultsAllPass | guis/straw/checkstraw.py:81-85 | over a straw list, all() is True iff the list is non-empty and each straw passes |
| CheckStraw.StrawPassAllMeaning | guis/straw/checkstraw.py:54-62 | strawPassAll is True iff the straw passes each of prep, ohms, C-O2, leak, lasr, leng, silv |
| CheckStraw.PalletPassAllMeaning | guis/straw/checkstraw.py:87-95 | palletPassAll is True iff the pallet passes each of the seven steps |
| CheckStraw.CollectStrawResults | guis/straw/checkstraw.py:81-82 | the results loop equals gathering the per-straw verdicts |
| CheckStraw.ReadStrawFields | guis/straw/checkstraw.py:78-80 | the loop over the last line keeps exactly the StrawFields |
| CheckStraw.PalletPass | guis/straw/checkstraw.py:64-85 | the method with its loops computes PalletVerdict |
| CheckStraw.StrawPassAll | guis/straw/checkstraw.py:54-62 | the method computes the strawPassAll verdict |
| CheckStraw.CollectPalletResults | guis/straw/checkstraw.py:90-92 | the results loop equals gathering the per-step pallet verdicts |
| CheckStraw.PalletPassAll | guis/straw/checkstraw.py:87-95 | the method computes the palletPassAll verdict |
| CheckStraw.StepsDictEntries | guis/straw/checkstraw.py:99-125 | steps_dict has exactly the nine codes, each mapped to the display name at the same position |
| CheckStraw.DistinctStepCodes | guis/straw/checkstraw.py:99-109 | the nine step codes are distinct, so no dict entry is overwritten |
| CheckStraw.BuildStepsDict | guis/straw/checkstraw.py:122-125 | the enumerate loop builds exactly steps_dict |
| CheckStraw.FailedSteps | guis/straw/checkstraw.py:130-133 | every listed step is a requested step whose result is False; no longer than the request; empty iff every result is True |
| CheckStraw.FailedStepsAppend | guis/straw/checkstraw.py:130-133 | the failed steps of two request lists one after the other are those of the first, then those of the second: request order is kept |
| CheckStraw.FailedStepsMember | guis/straw/checkstraw.py:131-133 | every requested step whose result is False is in the failed list |
| CheckStraw.DisplayNames | guis/straw/checkstraw.py:134 | mapping through steps_dict succeeds iff every code is a key (else KeyError), giving each code's name in order |
| CheckStraw.DisplayNameOfOne | guis/straw/checkstraw.py:134 | a single known code maps to its display name |
| CheckStraw.CollectFailed | guis/straw/checkstraw.py:130-133 | the loop collecting failed steps computes FailedSteps |
| CheckStraw.Check | guis/straw/checkstraw.py:97-135 | the method with its loops computes CheckVerdict |
| CheckStraw.CheckPassesIffAllSteps | guis/straw/checkstraw.py:97-128 | check returns normally iff palletPass is True for every requested step; an empty list always returns normally |
| CheckStraw.CheckUnknownStep | guis/straw/checkstraw.py:131-134 | a failing step that is not one of the nine codes makes check raise KeyError instead of StrawFailedError |
| CheckStraw.CheckFailureMessage | guis/straw/checkstraw.py:127-135 | for any list of known steps where some step fails, check raises StrawFailedError("<CPAL> failed step(s): " + the display names of the failed steps, in request order, joined by ", ") |
| CheckStraw.CheckMessageForOhms | guis/straw/checkstraw.py:127-135 | prep passing and ohms failing raise StrawFailedError("<CPAL> failed step(s): Resistance Test") |
| CheckStraw.OhmsFailure | guis/straw/checkstraw.py:113-135 | for [prep, ohms] with [True, False] the failed list is [ohms], named "Resistance Test" |
| Ledger.History | guis/straw/checkstraw.py:27-30 | the history holds no empty row and is no longer than the rows |
| Ledger.ReadHistory | guis/straw/checkstraw.py:27-30 | the loop `if line != []: history.append(line)` computes History |
| Ledger.HistoryAppend | guis/straw/checkstraw.py:27-30 | the history of appended rows is the history of each part, concatenated |
| Ledger.HistoryMembers | guis/straw/checkstraw.py:29-30 | a row is in the history iff it is a non-empty row of the file |
| Ledger.NewlineRows | guis/straw/laser/LazerGUI.py:675 | writing "\n" after a finished line adds an empty csv row, otherwise it only ends the line |
| Ledger.AppendLineRows | guis/straw/laser/LazerGUI.py:675-685 | after a newline, a written line adds exactly its own row |
| Ledger.AppendTerminatedLine | guis/straw/consolidate/consolidate_straws.py:338-339 | a line and its newline after a finished line add exactly that line's row, and the text ends a line again |
| Ledger.PassedPairs | guis/straw/consolidate/consolidate_straws.py:325 | every straw followed by "P", twice as many fields |
| Ledger.MarkedPairs | guis/straw/laser/LazerGUI.py:678-683 | every straw followed by "P", or by an empty status for an empty slot |
| Ledger.StepNamesPlain | guis/straw/laser/LazerGUI.py:677-690 | the step names "lasr" and "leng" hold no comma, line break or quote |
| Ledger.PlainRecord | guis/straw/consolidate/consolidate_straws.py:289 | a record built from plain fields has only plain fields |
| Ledger.RecordRoundTrip | guis/straw/checkstraw.py:25-26 | a record of plain fields (no comma, line break or quote) is one non-empty line whose row is the record |
| Ledger.MarkedPairsSnoc | guis/straw/laser/LazerGUI.py:678-683 | one more straw adds its pair at the end |
| Ledger.MarksJoin | guis/straw/laser/LazerGUI.py:678-685 | the straw-mark loop followed by the joined workers is the comma-join of pairs and workers |
| Ledger.StationLineFields | guis/straw/laser/LazerGUI.py:676-685 | a station line is the comma-join of timestamp, step, pairs and worker fields |
| Ledger.StationLineRow | guis/straw/laser/LazerGUI.py:676-685 | a station line of plain fields reads back as exactly its record |
| Ledger.NewlineLineRows | guis/straw/laser/LazerGUI.py:675-685 | `write("\n" + line)` adds a blank row when the file already ended a line, then the line's row |
| Ledger.AppendStationLine | guis/straw/co2/CO2GUI.py:328-345 | writing one station line adds exactly its record to the history; the file then does not end a line |
| Ledger.HistoryTwoRows | guis/straw/consolidate/consolidate_straws.py:338-339 | two non-empty rows appended are the two rows the history gains |
| Ledger.HistoryBlankThenRow | guis/straw/laser/LazerGUI.py:674-676 | a blank row then a row: the history gains only the row |
| Ledger.AppendStationLines | guis/straw/laser/LazerGUI.py:674-698 | two station lines written one after the other add their two records to the history |
| Ledger.WriteStrawMarks | guis/straw/laser/LazerGUI.py:678-683 | the loop writing straw, comma, mark, comma computes StrawMarks |
| Ledger.SlotStraws | guis/straw/laser/LazerGUI.py:669-672 | every field the loop test `1 < entry < 50 and entry % 2 == 0` selects within the row is kept, at position entry/2 - 1, and nothing else; at most 24 |
| Ledger.ReadSlotStraws | guis/straw/laser/LazerGUI.py:669-672 | the loop computes SlotStraws; a row of 50 fields gives 24 straws |
| Ledger.LastRowStraws | guis/straw/laser/LazerGUI.py:667-672 | at most 24 straws come from the last row |
| Ledger.ReadLastRowStraws | guis/straw/laser/LazerGUI.py:667-672 | the row loop computes LastRowStraws |
| Ledger.PalletNumFormat | guis/straw/laser/LazerGUI.py:361-376 | the check holds iff 8 characters, "CPAL" in any case, digits at 4, 5, 6; character 7 never changes the verdict |
| Ledger.VerifyPalletNum | guis/straw/laser/LazerGUI.py:361-376 | the pallet-number check; PalletNumFormat states its meaning: 8 characters, "CPAL" in any case, digits at 4, 5, 6 |
| Ledger.UncheckedLastCharacter | guis/straw/laser/LazerGUI.py:361-376 | "CPAL123X" is accepted although int() refuses its tail |
| Ledger.FixedPalletParses | guis/straw/laser/LazerGUI.py:486 | with all four digits checked the tail parses and its parity is that of the last digit |
| Consolidate.RateGateBoundaries | guis/straw/consolidate/consolidate_straws.py:59-60 | the gate accepts the limits themselves, rejects zero rate or error, and rejects anything above either limit |
| Consolidate.RateIsAcceptable | guis/straw/consolidate/consolidate_straws.py:59-60 | the rate gate; RateGateBoundaries states its meaning: both limits inclusive, zero excluded, anything above either limit rejected |
| Consolidate.LatestIndex | guis/straw/consolidate/consolidate_straws.py:92 | max by timestamp: no later test exists and every earlier-placed test is strictly older (first on ties) |
| Consolidate.UnrelatedLineIgnored | guis/straw/consolidate/consolidate_straws.py:68 | a line not mentioning the straw (any case) changes neither the found tests nor the verdict |
| Consolidate.NoMentionFails | guis/straw/consolidate/consolidate_straws.py:88-90 | with no line mentioning the straw nothing is found and the verdict is False |
| Consolidate.LatestLineDecides | guis/straw/consolidate/consolidate_straws.py:88-102 | a usable test strictly later than all before it decides the verdict by its own rate and error |
| Consolidate.CheckSummary | guis/straw/consolidate/consolidate_straws.py:64-102 | the summary verdict; LatestLineDecides states its meaning: the latest usable test of the straw decides by its own rate and error, and no test gives False |
| Consolidate.RecordedRowReadBack | guis/straw/consolidate/consolidate_straws.py:119-135 | the recorded row is read back from fields 1, 5 and 6 as the clock reading and the formatted rate and error |
| Consolidate.LeakTestMeaning | guis/straw/consolidate/consolidate_straws.py:198-236 | an error reading the summary escapes and changes nothing; a passing summary returns True and writes nothing; otherwise the verdict is: the plot entry or the manual entry is acceptable or overridden. The file only gains rows at its end, at most two, and none when the verdict is False |
| Consolidate.LeakTest | guis/straw/consolidate/consolidate_straws.py:198-240 | the leak decision for one straw; LeakTestMeaning states its meaning: summary errors escape, a passing summary writes nothing, otherwise the verdict is an acceptable or overridden entry, with at most two rows appended |
| Consolidate.RecordedRateIsFound | guis/straw/consolidate/consolidate_straws.py:106-144 | a recorded test (in range or overridden) that is strictly the latest decides checkSummaryFile afterwards by the values float() reads back from its ".2E" text; within the limits, the straw passes |
| Consolidate.FoundAfterError | guis/straw/consolidate/consolidate_straws.py:67-75 | the first line whose timestamp fails both formats raises and later lines do not matter |
| Consolidate.LeakSummary.constructor | guis/straw/consolidate/consolidate_straws.py:28-29 | the summary file holds the given lines |
| Consolidate.LeakSummary.CheckSummaryFile | guis/straw/consolidate/consolidate_straws.py:64-102 | the reading loop computes CheckSummary and leaves the file unchanged |
| Consolidate.LeakSummary.CheckAndRecord | guis/straw/consolidate/consolidate_straws.py:106-144 | returns gate OR override and appends the rate row exactly when it returns True |
| Consolidate.RecordRate | guis/straw/consolidate/consolidate_straws.py:106-144 | returns gate OR override and appends the rate row exactly when it returns True; LeakSummary.CheckAndRecord is the loop proved equal to it, and LeakTestMeaning uses it |
| Consolidate.LeakSummary.PassedLeakTest | guis/straw/consolidate/consolidate_straws.py:198-236 | computes the verdict and the new summary lines of LeakTest |
| Consolidate.SlotOf | guis/straw/consolidate/consolidate_straws.py:256-266 | the slot is below 24 and comes from an answer that int() reads as slot + 1 |
| Consolidate.ReadSlot | guis/straw/consolidate/consolidate_straws.py:256-266 | the retry loop computes SlotOf |
| Consolidate.SlotStep | guis/straw/consolidate/consolidate_straws.py:257-262 | each answer either names a slot in range(24) or the prompt moves on |
| Consolidate.ReplaceSlot | guis/straw/consolidate/consolidate_straws.py:269-277 | length kept; other slots untouched; the list changes only when the candidate passed; a passed candidate lands in its slot |
| Consolidate.Finalize | guis/straw/consolidate/consolidate_straws.py:242-279 | the review keeps the list length |
| Consolidate.FinalizeKeepsOrReplaces | guis/straw/consolidate/consolidate_straws.py:242-279 | every straw left in a slot was there before, or is the candidate of some round that passed the leak decision on the summary lines as the rounds before it left them |
| Consolidate.ReplaceRound | guis/straw/consolidate/consolidate_straws.py:269-277 | one round on the array and the summary file computes ReplaceSlot |
| Consolidate.FinalizeStraws | guis/straw/consolidate/consolidate_straws.py:242-279 | the in-place loop computes Finalize on the list and the summary file |
| Consolidate.ScanIn | guis/straw/consolidate/consolidate_straws.py:304-316 | scan-in never exceeds 24 straws and only appends |
| Consolidate.ScanInAcceptsPassed | guis/straw/consolidate/consolidate_straws.py:305-311 | every straw the scan-in accepts was scanned, and the leak decision passed it on the summary lines as the scans before it left them |
| Consolidate.ScanInStep | guis/straw/consolidate/consolidate_straws.py:307-316 | one scan: the leak decision, then the remaining scans with the straw added iff it passed |
| Consolidate.ScanInStraws | guis/straw/consolidate/consolidate_straws.py:304-316 | the loop computes ScanIn on the list and the summary file |
| Consolidate.Terminated | guis/straw/consolidate/consolidate_straws.py:334-337 | the text gains at most a final newline, ends with a newline, and keeps its rows |
| Consolidate.PalletFile.constructor | guis/straw/consolidate/consolidate_straws.py:330-333 | the pallet file holds the given text |
| Consolidate.PalletFile.AppendConsolidation | guis/straw/consolidate/consolidate_straws.py:330-339 | an empty file raises IndexError and is left alone; otherwise the text becomes Consolidated |
| Consolidate.PassedJoin | guis/straw/consolidate/consolidate_straws.py:325 | `",P,".join(straws) + ",P"` is the comma-join of the straw/"P" pairs |
| Consolidate.JoinRecord | guis/straw/consolidate/consolidate_straws.py:338 | the comma-join of a one-worker record, field group by field group |
| Consolidate.ConsolidationLineFields | guis/straw/consolidate/consolidate_straws.py:325-339 | a consolidation line is the comma-join of its record |
| Consolidate.PlainPairs | guis/straw/consolidate/consolidate_straws.py:325 | plain straws give plain pair fields |
| Consolidate.ConsolidationRow | guis/straw/consolidate/consolidate_straws.py:338-339 | the csv row of a consolidation line is date, step, straw/"P" pairs, worker |
| Consolidate.LineRoundTrip | guis/straw/consolidate/consolidate_straws.py:338-339 | a line that is the comma-join of plain fields reads back as those fields |
| Consolidate.ConsolidatedRows | guis/straw/consolidate/consolidate_straws.py:325-339 | run keeps every existing row and adds exactly two rows, lasr then leng, each every straw then "P", then the worker |
| Consolidate.StepLinesRows | guis/straw/consolidate/consolidate_straws.py:334-339 | the same for any two plain step names |
| Consolidate.TwoLinesRows | guis/straw/consolidate/consolidate_straws.py:334-339 | the old text is a prefix and the rows gain exactly the rows of the two lines |
| Consolidate.ConsolidationLineMarks | guis/straw/consolidate/consolidate_straws.py:338-339 | each consolidated straw is followed by "P" in both new records |
| Consolidate.RecordPairMarks | guis/straw/consolidate/consolidate_straws.py:338 | a straw/"P" pair in a record marks that straw |
| Consolidate.ConsolidatedHistory | guis/straw/consolidate/consolidate_straws.py:330-339 | the history after run is the history before plus the two new records |
| Consolidate.ConsolidationPassesStraws | guis/straw/consolidate/consolidate_straws.py:325-339 | after run the genealogy check cannot answer False for any consolidated straw at lasr or leng |
| Laser.ScanFirst | guis/straw/laser/LazerGUI.py:167-178 | F,I,R,S,T from any buffer gives "FIRST"; Return then starts firstCut and leaves "FIRST" |
| Laser.ScanFinish | guis/straw/laser/LazerGUI.py:167-209 | F,I,N,I,S,H from any buffer gives "FINISH"; Return then starts saveData and clears the buffer |
| Laser.ScanSecond | guis/straw/laser/LazerGUI.py:179-198 | S,E,C,O,N,D gives "SECOND" unless the buffer was FIR, FIRS or FINI; Return starts chooseCut and clears it |
| Laser.KeyRules | guis/straw/laser/LazerGUI.py:167-185 | F always restarts at "F"; S restarts at "S" except after FIR, FIRS, FINI; other keys change nothing |
| Laser.NextEntry | guis/straw/laser/LazerGUI.py:167-185 | the key buffer; KeyRules, ScanFirst, ScanSecond and ScanFinish state its meaning: which keys restart it and which typed words it recognises |
| Laser.Bucket | guis/straw/laser/LazerGUI.py:127 | the bucket indexes one of the four humidity values |
| Laser.BucketIsFirstNearest | guis/straw/laser/LazerGUI.py:501-504 | the midpoint bucket is exactly the first index of the smallest squared difference |
| Laser.NearestHumidity | guis/straw/laser/LazerGUI.py:501-504 | the diff / min / index loop returns the first nearest humidity value |
| Laser.Removals | guis/straw/laser/LazerGUI.py:430-437 | the removal loop raises only IndexError |
| Laser.RemovalsListed | guis/straw/laser/LazerGUI.py:430-437 | with full lists, a straw is listed iff its slot is "Fail", or "Incomplete" with a non-"Empty" straw |
| Laser.ShortStatusesRaise | guis/straw/laser/LazerGUI.py:431-435 | fewer than 24 statuses raise IndexError |
| Laser.RaiseStops | guis/straw/laser/LazerGUI.py:431-437 | once the loop raises, later slots do not matter |
| Laser.FailedStraws | guis/straw/laser/LazerGUI.py:430-437 | the loop computes Removals over 24 slots |
| Laser.PalletReviewVerified | guis/straw/laser/LazerGUI.py:412-446 | verified iff the last recorded step is "leak" and no slot is flagged; every "Fail" slot's straw is listed |
| Laser.ScannedPallet | guis/straw/laser/LazerGUI.py:344-359 | an accepted pallet number passes the four-digit (corrected) pallet-number check |
| Laser.SecondFields | guis/straw/laser/LazerGUI.py:510-514 | reading the cut-length table appends each row's second field, stopping at the first row without one, which raises IndexError |
| Laser.AfterCut | guis/straw/laser/LazerGUI.py:493-561 | returns iff the table of the parity and humidity exists and every row has two fields; an exception leaves the program unloaded; the cut type is set and the cut lengths only grow |
| Laser.ChooseCutOutcome | guis/straw/laser/LazerGUI.py:473-491 | declining leaves everything; otherwise chooseCut returns iff the number parses and the cut-length table reads, with step 2 and an even number choosing the (0-4) cut; an exception leaves step 1 |
| Laser.AfterChooseCut | guis/straw/laser/LazerGUI.py:473-491 | chooseCut; ChooseCutOutcome states its meaning: returns iff the number parses and the table reads, step 2 then, step 1 and nothing else changed on an exception |
| Laser.VerifiedPalletCut | guis/straw/laser/LazerGUI.py:473-561 | with a fully checked number chooseCut never raises ValueError; the last digit's parity picks the cut, and when that cut-length table reads, the nearest humidity's program is loaded and step is 2 |
| Laser.UnverifiedPalletRaises | guis/straw/laser/LazerGUI.py:473-486 | "CPAL123X" passes the check as written and then chooseCut raises ValueError |
| Laser.SaveDataHistory | guis/straw/laser/LazerGUI.py:657-761 | saveData at step 2 adds the lasr and leng records of the straws to the pallet's history and resets step to 0 |
| Laser.LaserSavedHistory | guis/straw/laser/LazerGUI.py:674-698 | the two writes add exactly the lasr record and the leng record to the history |
| Laser.SaveDataPassesStraws | guis/straw/laser/LazerGUI.py:657-698 | after saveData the genealogy check cannot answer False for any written straw at lasr or leng |
| Laser.LaserStation.constructor | guis/straw/laser/LazerGUI.py:89-122 | empty buffer, step 0, no pallet, no cut lengths, no straws |
| Laser.LaserStation.KeyPressEvent | guis/straw/laser/LazerGUI.py:166-209 | the buffer follows NextEntry and the triggered action runs on the old state |
| Laser.LaserStation.GetPalletNum | guis/straw/laser/LazerGUI.py:344-359 | an accepted number and the CPALID holding its file are stored; Cancel changes nothing |
| Laser.LaserStation.InterpretEditPallet | guis/straw/laser/LazerGUI.py:412-446 | returns the removal list and sets only the verified flag |
| Laser.LaserStation.FirstCut | guis/straw/laser/LazerGUI.py:462-468 | loads the first program and sets step to 1 |
| Laser.LaserStation.ChooseCut | guis/straw/laser/LazerGUI.py:473-491 | computes AfterChooseCut on the fields, exceptions from the cut-length read included |
| Laser.LaserStation.ZeroFour | guis/straw/laser/LazerGUI.py:493-517 | computes AfterCut for the (0-4) cut: reads the LaserInfo0,4 table of the nearest humidity, then loads its program |
| Laser.LaserStation.TwoSix | guis/straw/laser/LazerGUI.py:537-561 | computes AfterCut for the (2-6) cut: reads the LaserInfo2,6 table of the nearest humidity, then loads its program |
| Laser.LaserStation.ReadCutLengths | guis/straw/laser/LazerGUI.py:510-514 | a missing table raises FileNotFoundError and changes nothing; otherwise the loop appends SecondFields of the rows and raises IndexError iff a row lacks a second field |
| Laser.LaserStation.SaveData | guis/straw/laser/LazerGUI.py:657-733 | computes AfterSaveData on the fields |
| Laser.LaserStation.ResetGUI | guis/straw/laser/LazerGUI.py:747-772 | clears palletID, palletNum, cutType, the cut lengths and the straws, sets step to 0 and keeps the scan buffer and the pallet files |
| CO2.VerifyEpoxyBatch | guis/straw/co2/CO2GUI.py:265-290 | the only exception the check can raise is ValueError |
| CO2.EpoxyBatchAsWritten | guis/straw/co2/CO2GUI.py:269-290 | on the stripped, upper-cased entry, the only exception is ValueError |
| CO2.EpoxyFixedAgrees | guis/straw/co2/CO2GUI.py:265-290 | when the whole date is digits the check as written returns the corrected verdict |
| CO2.EpoxyAgreesOn | guis/straw/co2/CO2GUI.py:269-290 | the same on the stripped, upper-cased entry |
| CO2.EpoxyFixedMatches | guis/straw/co2/CO2GUI.py:265-290 | the check as written either returns the corrected verdict or raises ValueError on a batch the corrected check refuses |
| CO2.EpoxyYearRefused | guis/straw/co2/CO2GUI.py:273-284 | the corrected check refuses "CO2.01011X.12" instead of raising |
| CO2.EpoxyFixedAccepted | guis/straw/co2/CO2GUI.py:265-290 | every batch the corrected check accepts is accepted as written |
| CO2.EpoxyYearRaises | guis/straw/co2/CO2GUI.py:273-281 | "CO2.01011X.12" passes the isnumeric test on 4..8 and then int("1X") raises ValueError |
| CO2.EpoxyDateRaises | guis/straw/co2/CO2GUI.py:273-281 | a valid month and day followed by an unparsable year raise ValueError |
| CO2.EpoxyLettersAccepted | guis/straw/co2/CO2GUI.py:273-290 | a non-digit date such as "CO2.ABCDEF.12" skips the date checks and is accepted, as written and after the correction |
| CO2.DP190Format | guis/straw/co2/CO2GUI.py:292-299 | accepted batches read "DP190." and three digits, and each such text is accepted in either case |
| CO2.DP190Accepts | guis/straw/co2/CO2GUI.py:292-299 | "DP190." or "dp190." followed by three digits is accepted |
| CO2.FloorDiv | guis/straw/co2/CO2GUI.py:418-419 | the whole part of r / d equals the whole seconds of r divided by d |
| CO2.DisplayReadsElapsed | guis/straw/co2/CO2GUI.py:414-420 | hours are non-negative, minutes and seconds lie in 0..59, and h*3600 + m*60 + s is the whole elapsed seconds |
| CO2.Display | guis/straw/co2/CO2GUI.py:416-420 | the stopwatch fields; DisplayReadsElapsed states its meaning: minutes and seconds in 0..59 and h*3600 + m*60 + s the whole elapsed seconds |
| CO2.InitialDataGate | guis/straw/co2/CO2GUI.py:158-216 | the stopwatch starts iff the file exists, all entries are valid and check(prep, ohms) passes; then both steps pass |
| CO2.AfterInitialData | guis/straw/co2/CO2GUI.py:158-202 | initialData; InitialDataGate states its meaning: the stopwatch starts iff the file exists, the entries are valid and the check passes |
| CO2.LowerAllCaseless | guis/straw/co2/CO2GUI.py:341-342 | the written workers hold no capital, equal the entered names up to case, and lower-casing them again changes nothing |
| CO2.LowerPlain | guis/straw/co2/CO2GUI.py:342 | lower-casing keeps a field plain |
| CO2.FinishHistory | guis/straw/co2/CO2GUI.py:313-408 | finish adds exactly the C-O2 record of the straws and lower-cased workers to the history, and clears the entries |
| CO2.FinishPassesStraws | guis/straw/co2/CO2GUI.py:313-345 | after finish the genealogy check cannot answer False at C-O2 for any written straw |
| CO2.WriteWorkers | guis/straw/co2/CO2GUI.py:340-345 | the loop writes the lower-cased workers joined by commas |
| CO2.CO2Station.constructor | guis/straw/co2/CO2GUI.py:50-93 | empty entries and straws, stopwatch off |
| CO2.CO2Station.InitialData | guis/straw/co2/CO2GUI.py:158-216 | computes AfterInitialData on the fields |
| CO2.CO2Station.StopWatch | guis/straw/co2/CO2GUI.py:301-303 | sets the start time and turns timing on, nothing else |
| CO2.CO2Station.TimeUp | guis/straw/co2/CO2GUI.py:308-309 | turns timing off, nothing else |
| CO2.CO2Station.SaveData | guis/straw/co2/CO2GUI.py:313-345 | computes AfterSaveData on the fields |
| CO2.CO2Station.ResetGUI | guis/straw/co2/CO2GUI.py:374-379 | clears entries and straws |
| CO2.CO2Station.Finish | guis/straw/co2/CO2GUI.py:406-408 | save then reset |
| Refit.Truncate | guis/straw/leak/refit_straw_leak.py:22-23 | the result is never longer than the input |
| Refit.TruncateOffset | guis/straw/leak/refit_straw_leak.py:23 | the kept run starts within the series |
| Refit.TruncateContiguous | guis/straw/leak/refit_straw_leak.py:23 | whatever the bounds, the result is one contiguous run of the input |
| Refit.TruncateKeepsFirst | guis/straw/leak/refit_straw_leak.py:23 | nstart 0 or 1 keeps the first point; nend in range drops exactly nend at the end; nend 0 keeps everything |
| Refit.TruncateDrops | guis/straw/leak/refit_straw_leak.py:23 | nstart = k >= 1 drops k - 1 points at the front and nend drops nend at the back |
| Refit.TruncateOverlap | guis/straw/leak/refit_straw_leak.py:23 | skips that overlap leave nothing |
| Refit.TruncateNegativeStop | guis/straw/leak/refit_straw_leak.py:23 | nend beyond the length makes the stop negative, counted from the end again |
| Refit.TruncateNegativeEnd | guis/straw/leak/refit_straw_leak.py:23 | a negative nend drops nothing at the end |
| Refit.TruncateAligned | guis/straw/leak/refit_straw_leak.py:25-27 | equally long series stay equally long, and each kept timestamp stays with its own PPM and error |
| Refit.ChamberTwoDigits | guis/straw/leak/refit_straw_leak.py:30-31 | two digits at 15 and 16 are the chamber number |
| Refit.ChamberOneDigit | guis/straw/leak/refit_straw_leak.py:30-33 | a digit at 15 followed by a non-digit, non-space falls back to the one digit |
| Refit.ChamberAtEnd | guis/straw/leak/refit_straw_leak.py:30-33 | a 16-character name ending in a digit gives that digit |
| Refit.ChamberTooShort | guis/straw/leak/refit_straw_leak.py:30-33 | a name too short to reach position 15 raises ValueError |
| Refit.ChamberLetter | guis/straw/leak/refit_straw_leak.py:30-33 | a letter at position 15 raises ValueError |
| Refit.Chamber | guis/straw/leak/refit_straw_leak.py:30-33 | the chamber number in a file name; ChamberTwoDigits, ChamberOneDigit, ChamberAtEnd, ChamberTooShort and ChamberLetter state its meaning |
| PlotLeak.FitStartRegimes | guis/panel/leak/PlotLeakRate.py:126-136 | 0 below 0.3 days, 0.2 below 2 days, a tenth of the duration after that |
| PlotLeak.GetFitStartTime | guis/panel/leak/PlotLeakRate.py:130-136 | the fit start time; FitStartRegimes states its meaning: 0 below 0.3 days, 0.2 below 2 days, a tenth of the duration after that |
| PlotLeak.FitStartWithinTest | guis/panel/leak/PlotLeakRate.py:130-136 | the default start is never negative and, for a test of 0.3 days or more, lies before its end |
| PlotLeak.FitStartMonotone | guis/panel/leak/PlotLeakRate.py:130-136 | a longer test never starts its fit earlier |
| PlotLeak.GetTime | guis/panel/leak/PlotLeakRate.py:210-227 | the parser fails only with ValueError or OverflowError |
| PlotLeak.ClockFields | guis/panel/leak/PlotLeakRate.py:220 | "HH:MM:SS" of digit fields, zero-padded or not, holds no "." and splits into its three fields |
| PlotLeak.ClockParses | guis/panel/leak/PlotLeakRate.py:220 | the three digit fields int() back to the numbers they denote, leading zeros included |
| PlotLeak.GetTimeClock | guis/panel/leak/PlotLeakRate.py:215-227 | with no ".", any "HH:MM:SS" of digit fields is (3600 H + 60 M + S) / 86400 days |
| PlotLeak.GetTimeDays | guis/panel/leak/PlotLeakRate.py:212-227 | any "D.HH:MM:SS" of digit fields is (86400 D + 3600 H + 60 M + S) / 86400 days, below the timedelta day limit |
| PlotLeak.PaddedClockExample | guis/panel/leak/PlotLeakRate.py:212-227 | the zero-padded reading "00:05:30" is 330 / 86400 days |
| PlotLeak.GetTimeTwoDots | guis/panel/leak/PlotLeakRate.py:214 | two "." make the unpacking fail with ValueError |
| PlotLeak.GetTimeTwoFields | guis/panel/leak/PlotLeakRate.py:220 | a time part with only two fields fails with ValueError |
| PlotLeak.FindPanel | guis/panel/leak/PlotLeakRate.py:123 | the leftmost match of MN and three digits at or after i, or none anywhere after i |
| PlotLeak.GetPanelID | guis/panel/leak/PlotLeakRate.py:121-123 | succeeds iff some match exists (else AttributeError), giving the first "MN" plus three digits in the name |
| PlotLeak.PanelAfterPrefix | guis/panel/leak/PlotLeakRate.py:121-123 | a name "prefix MN ddd rest" with no 'M' in the prefix gives "MNddd" |
| PlotLeak.DocumentedFilename | guis/panel/leak/PlotLeakRate.py:121-123 | "201109_1257_MN061test6.txt" gives "MN061" |
| PlotLeak.Window | guis/panel/leak/PlotLeakRate.py:296 | the window keeps exactly the rows strictly between start and end |
| PlotLeak.WindowAppend | guis/panel/leak/PlotLeakRate.py:296 | the window of a file split in two is the two windows in order, so the window keeps the file's order |
| PlotLeak.TotalDuration | guis/panel/leak/PlotLeakRate.py:309 | defined iff the file has a row; an empty file raises IndexError |
| PlotLeak.FitRange | guis/panel/leak/PlotLeakRate.py:310-315 | an option is used when truthy; the default start is never negative, and for a test of 0.3 days or more the default window is not empty |
| PlotLeak.FitRows | guis/panel/leak/PlotLeakRate.py:296-315 | defined iff the file has a row; the fitted rows are rows of the file |
| PlotLeak.DefaultFitDropsLast | guis/panel/leak/PlotLeakRate.py:296-315 | with the default end the last reading is never fitted |
| PlotLeak.ZeroStartIsDefault | guis/panel/leak/PlotLeakRate.py:310-314 | an explicit start of 0 is falsy and behaves exactly like no start |
| PlotLeak.FitRowsMembership | guis/panel/leak/PlotLeakRate.py:296-315 | a reading is fitted iff it is a row of the file strictly between the chosen start and end |

## Left out

- The PyQt widgets, dialogs and message boxes are not modelled. Neither are
  pyautogui clicks and typing (`openFile`, `loadLaser`, `changeSettings`),
  win32 window handling, `updateBoard` and the credential polling loop.
  They are foreign side effects with nothing to state.
- The laser info file and the epoxy info file that the stations write
  besides the pallet file are not modelled. Only the pallet ledger feeds the
  genealogy check.
- Laser.AfterCut: `cutTemperature` and `cutHumidity`, `str()` of the
  float readings, are not modelled. They only feed the laser info file
  that `saveData` writes, which is left out as above.
- Laser.AfterCut: the LaserInfo tables are a map from file name to the
  rows `csv.reader` gives. The `Cut2-RH<h>` directory that holds them is
  fixed by the same humidity value as the name.
- Directory walking is a map from pallet name to file. When two `CPALID`
  directories hold the same `CPALnnnn.csv`, `strawPass` reads both and
  `palletPass` collects straws from both. The model has one file per name.
- `input()` prompts and `getYN` are datatypes of answers (`Operator`,
  `Round`, `Scan`). `datetime.now()`, the current year, `strptime`,
  `strftime`, `float()` and `format(x, ".2E")` are parameters.
- Floating point is not modelled: rates, durations and times are exact
  reals. The test `total_duration < kFIT_START_TIME + 0.1` is modelled
  against 0.3, whereas the floating-point sum is 0.30000000000000004.
  `get_time`'s divisions are exact.
- PlotLeak.GetTime: the `round()` of `td.total_seconds()` is the exact
  integer total, because fractions of a second never arise from integer
  fields.
- The leak-rate fit is not modelled (`get_fit`, `linregress`, `polyfit`,
  `calculate_leak_rate`). Neither are chamber volumes, resampling and all
  plotting. These are numerical libraries and I/O.
- Builtins.ParseInt: `int()` is modelled on ASCII digits with an optional
  sign and surrounding whitespace. Underscores between digits and non-ASCII
  digits are not accepted.
- PlotLeak.GetPanelID: `\d` is modelled as ASCII digits only, not every
  Unicode digit.
- `isnumeric` is ASCII digits only.
- `upper`, `lower` and `strip` are modelled on ASCII only: other letters keep their case and only ASCII whitespace is stripped.
- CheckStraw.StrawVerdict: the recursion carries fuel standing for Python's
  recursion limit. The exact depth at which Python raises RecursionError
  depends on the interpreter's stack and is not modelled.
- Consolidate.Finalize: the operator's rounds and slot answers are finite.
  When either runs out before the operator confirms, the result is
  Ok(false), where the script would still be waiting for input.
- Consolidate.ScanIn: likewise, running out of scans gives fewer than 24
  straws, where the script would keep prompting.
- `run`'s pallet naming is not modelled: the slices `cpal_id[-2:]` and
  `cpal_num[-4:]` that build the directory and file name
  (guis/straw/consolidate/consolidate_straws.py:291-297). The model takes
  the pallet file as an existing PalletFile, so the FileNotFoundError that
  `open(cfile, "r+")` raises when it does not exist (line 330) is not
  modelled either.
- Consolidate.LeakSummary.CheckAndRecord: a write that fails inside
  `recordNewRate` is not modelled. The row is always written whole.
- CO2.CO2Station.InitialData uses the corrected pallet-number and
  epoxy-batch checks from "## Findings". As written, an entry such as
  "CO2.01011X.12" makes `initialData` raise ValueError before the gate;
  the model refuses it instead. Every batch on which the check as written
  returns, non-digit dates such as "CO2.ABCDEF.12" included, gets the same
  verdict.
- CO2.InitialDataGate: the same corrected checks; "CPAL123X" is refused as
  a pallet number, where `initialData` accepts it.
- Laser.ScannedPallet likewise uses the corrected pallet-number check.
- Laser.LaserStation.GetPalletNum uses the corrected pallet-number check
  through Laser.ScannedPallet, so it refuses "CPAL123X".
- CO2.AfterInitialData uses the corrected pallet-number and epoxy-batch
  checks, as CO2.CO2Station.InitialData does.
- Ledger.Row: csv.reader's quoting (a '"'-quoted field that holds commas)
  and '\r' line ends are not modelled; a row is its line split on ','.
  PlainField excludes ',', '"', '\r' and '\n', so the round trips are
  stated only for such fields.
- Laser.LaserStation.ResetGUI: the closing `initializePallet` call
  (LazerGUI.py:772) is not part of the reset. The prompt for the next pallet
  and its review are the separate GetPalletNum and InterpretEditPallet
  calls.
- Laser.ScannedPallet: the operator's answers are finite. Running out gives
  None, where `getPalletNum` would prompt again for ever; the same holds for
  Laser.LaserStation.GetPalletNum.
- `editPallet` and the straw-removal dialog it opens are not modelled. They
  belong to another module that is not part of this model.

## Findings

| source | as written | input that shows it | evidently intended | confidence | as-written member | corrected member |
|---|---|---|---|---|---|---|
| guis/straw/laser/LazerGUI.py:361-376 | the pallet number check tests only `pallet_num[4:7]`, three characters, although its comment says the last four are digits; `chooseCut` (line 486) then calls `int(self.palletNum[4:])` | "CPAL123X": accepted, then `int("123X")` raises ValueError in `chooseCut` | all four characters 4..7 are digits, so the parity is always defined | not executed | Ledger.UncheckedLastCharacter, Laser.UnverifiedPalletRaises | Ledger.FixedPalletParses, Laser.VerifiedPalletCut |
| guis/straw/co2/CO2GUI.py:248-263 | the same three-character check as the laser station | "CPAL123X" is accepted as a pallet number | four digits | not executed | Ledger.UncheckedLastCharacter | Ledger.FixedPalletParses |
| guis/straw/co2/CO2GUI.py:273-284 | the date is checked only when `eb[4:9]` is numeric, but the year is `int(eb[8:10])`, which also reads character 9 | "CO2.01011X.12": characters 4..8 are digits, then `int("1X")` raises ValueError | when characters 4..8 are digits, character 9 must be one too, and otherwise the batch is refused instead of raising; a date whose characters 4..8 are not all digits stays unchecked | not executed | CO2.EpoxyYearRaises | CO2.EpoxyFixedMatches, CO2.EpoxyYearRefused |
