# The EFI driver's protocols and engines in Dafny

The driver talks to the EFI chip over a bus that can fail at any access. Most of its calls are one
register access; four parts of it are more than that, and they are what this project models.

**The request handshake** (`Protocol*.dfy`, `DriverCode.dfy`, `DriverRuns.dfy`, `ThreadSteps.dfy`). A call
takes a mutex, moves an atomic word from Idle to Pending, writes one or two registers and waits for
an interrupt handler to move the word to Done or Failed. General commands and flash operations are
two instances of it, told apart by the `channel` of the state. `Protocol` is a transition system:
any number of calls, the mutex, the word, the device with its registers and its flash memory, the
latched causes in IFG and ERR, and the interrupt thread with its two separate register reads and one
step for each line. The bus access of a step succeeds or fails as its event says. `Step` is the lock
holder's next statement, `Finish` the device answering, `ReadIfg`, `ReadErr` and `RunLine` the
interrupt thread, `Noise` any cause that belongs to somebody else (the other instance, the keys),
`SetMask` a line switched on or off, `Spurious` a handler that runs without a cause. `DriverCode` is
the driver's own code on mutable fields, one method for each of its calls. A schedule has one slot for
each statement and for each look at the mutex or the word, in order: the steps the other parties take
before it, and how its bus access ends. Each method shows that its fields are exactly where the
transition system gets by the slots it used; `Serve` carries that from a new driver through any
requests, so the theorems about runs speak of that code. `ProtocolInstances` puts the two instances side
by side, with one IFG, ERR, mask and thread, and shows that a run of both is a run of each.
`ProtocolMemory` says what the flash holds and what reads return, on raw cells and on the history of the
device; `ProtocolResults` says what must have happened to a call that returns a given error.

**The interrupt chip** (`IrqChip.dfy`, `IrqLines.dfy`). Enable requests are batched into the IE
register and wake calls into the parent when the bus lock is released; the thread dispatches the
causes it has read.

**The LED engines** (`Led*.dfy`, `BitPattern.dfy`, `BlinkDelay.dfy`). Sixteen LEDs are two-bit fields
of two registers. A refresh decides for every blinking or patterned LED, collects the changes of all
of them and writes each register once. `LedPanel` says what a refresh or a call means for each LED by
itself; `LedDriver` is the code on the array of LEDs and on the registers; `LedRuns` is about all
sequences of refreshes and calls.

**The bus frames** (`BusFrames.dfy`) of the four kinds of register access. `Words.dfy` has the laws
of sixteen-bit values that the proofs use.

## Hypotheses

- *Interrupts from the device only* (`Genuine` runs): the device answers each accepted command with
  exactly one completion or error, and a bus access that reports failure has not reached it. Needed
  by `ProtocolMatching`, `ProtocolProgress` and `ProtocolMemory`. Nothing in `ProtocolSafety` uses it, nor
  do `ResultExplained` and `FailedIsNotOk`: there a write
  that fails but is answered all the same is a `Spurious` event after a failed `Step`.
- *Clean interrupt reads* (`AllClean` runs): in addition the interrupt thread's register reads succeed
  and the two lines of the handshake stay enabled. `CanEndIff` and `CanEndUnlessLost` say what holds
  without this.
- Nobody else writes the registers of a model: the raw register calls are outside.
- The LED registers' writes succeed. In `LedRuns` the refresh thread exists.
- A flash cell that was never written, or was erased, reads 0xFFFF. The size of a segment is a parameter. A
  successful write or erase needs the write-enable flag; the device may reject any operation.

## Findings

- With the mutex free the word is not always Idle: an interrupt handler that runs between the
  start of a request and the rollback after its failed bus write, also after that write has failed, wins
  over the rollback, and the word stays Done or Failed for ever (`PoisonedRun`). `LockFreeIdleUnlessRaced` gives the exact condition on the events of the run;
  `StuckGencmdFails` and `StuckFlashFails` say what follows.
- A caller can wait for ever, in two ways. Its completion is dropped (`Drops`): a read of ERR fails
  after IFG was read together with a completion, a read fails after it has cleared the completion, or
  the line is off (`DroppedRun`). Or its error stays behind in ERR with its announcement in IFG used up
  (`Strands`): the read of ERR fails before it clears ERR, or the read of IFG fails after it has cleared
  IFG (`StrandedRun`); then only some unrelated later error can bring the thread to read ERR again
  (`StrandedForever`). `CanEndUnlessLost` says that while both lines are on there is no third way.
- A delay within 249 of the largest unsigned long wraps around when it is rounded up and becomes a
  count of zero: the LED does not blink and the reported delay is 0 (`NormalisesIff`, `CountIsZeroIff`).
- The cache of an LED stays right even if the LED has both a blink and a pattern. What breaks it is a
  brightness call on an LED that is being refreshed, exactly as `CacheFitsIff` says; `LostBrightness`
  and `LostThroughDark` have the consequence.
- A failed IE write is never repeated: the requested mask counts as applied, and a line that is wrong in
  IE stays wrong until somebody asks for that line again (`NotRepeated`, `NeverRepeated`). `IeRightIff`
  says when IE is right although writes failed: each change turns a line over, so two lost ones cancel.
- A plain write and a clearing of bits are the same frame on the bus (`SameFrameIff`).

## Model

| member | source | states |
|---|---|---|
| ProtocolSafety.NextKeepsSafe | src/core/leicaefi-chip.c:161-274 | every step, under any interrupts and failures, keeps mutual exclusion and the relation between the lock holder's position and the state word |
| ProtocolSafety.WordMovesInEveryRun | src/core/leicaefi-chip.c:42-56 | in every run only the lock holder takes the word out of Idle or back to it, at the start, the rollback and the settling, and handlers only move Pending to Done or Failed |
| ProtocolSafety.NoExecutionError | src/core/leicaefi-chip.c:193-226 | after the wait the word is Done or Failed, the compare-and-swap back to Idle succeeds, and the call gets the result for that word; the "execution error" branch is never taken, for general commands and for the four waiting flash operations |
| ProtocolSafety.LockFreeIdleIff | src/core/leicaefi-chip.c:167-187 | with the mutex free the word is Idle if and only if no rollback of the run found the word already moved by an interrupt |
| ProtocolSafety.LockFreeIdleUnlessRaced | src/core/leicaefi-chip.c:167-187 | with the mutex free the word is Idle if and only if no handler ran between the start of a request and the rollback of that same request |
| ProtocolSafety.WindowRace | src/core/leicaefi-chip.c:167-182 | between the start of a request and its rollback the word is still Pending if and only if no handler has run |
| ProtocolSafety.PoisonedRun | src/core/leicaefi-chip.c:167-187 | a run with one general command that ends with the mutex free and the word Done |
| ProtocolSafety.StuckIffPoisoned | src/chr/leicaefi-chr-flash.c:310-332 | the stuck word is caused by exactly those lost rollbacks, and nothing cures it |
| ProtocolSafety.StuckForever | src/chr/leicaefi-chr-flash.c:310-332 | once stuck, in every continuation the word keeps its value, no later waiting request gets past its start, and each is turned away with the result its own checks give, or the internal error |
| ProtocolSafety.StuckGencmdFails | src/core/leicaefi-chip.c:167-187 | every later general command returns the internal error, or was interrupted at the mutex, and no register write happens in the continuation |
| ProtocolSafety.StuckFlashFails | src/chr/leicaefi-chr-flash.c:303-425 | every later write or erase returns the internal error, every later mode switch or checksum check what its checks of the mode say or the internal error, and the memory and the mode keep what they hold |
| ProtocolSafety.WritesCounted | src/core/leicaefi-chip.c:173-175 | the counter of bus writes is the number of register writes of the lock holders in the run |
| ProtocolSafety.NoDeadlock | src/core/leicaefi-chip.c:229-243 | in every reachable state a call in progress can take the mutex, or the holder can take a step, or the holder waits in Pending |
| ProtocolMatching.NextKeepsMatched | src/chr/leicaefi-chr-flash.c:303-449 | every step keeps the invariant that ties shared device registers, the device's job, the latched causes, the pass in flight, the word and the history of the device to the holder's own request |
| ProtocolMatching.FinishConserves | src/core/leicaefi-irq.c:226-243 | when the device answers, its job turns into exactly one latched cause: conservation of the completion |
| ProtocolMatching.OtherInstanceIsNoise | src/core/leicaefi-irq.c:14-40 | general commands and flash share the registers and the thread but use different bits: what any step of one instance does to them is a step of the other instance, and a device's answer to one is only an unrelated cause for the other |
| ProtocolMatching.AnswerBits | src/core/leicaefi-irq.c:14-40 | a completion latches bit 5 of IFG for a general command and bit 1 for flash, an error bit 0 of IFG and that bit of ERR |
| ProtocolMatching.LineTokens | src/core/leicaefi-irq.c:246-262 | one line of a pass takes exactly its own completion out of the pass and moves the word, or drops it if the line is off |
| ProtocolMatching.PerformedIsAtomic | src/chr/leicaefi-chr-flash.c:303-425 | what the device does for a command is what the caller's request means on the atomic memory |
| ProtocolMatching.CallsLinearize | src/chr/leicaefi-chr-flash.c:265-449 | for every interleaving of any number of calls there is a sequential execution of them on one atomic memory, each call on its own address, that ends in the device's memory and gives every returned call the result it returned |
| ProtocolMatching.RealTimeOrder | src/chr/leicaefi-chr-flash.c:476-562 | in that sequential execution a call that has returned comes before every call made afterwards |
| ProtocolMatching.ReturnedIsFinal | src/chr/leicaefi-chr-flash.c:476-562 | a returned call and its result never change again |
| ProtocolMatching.GencmdResponse | src/core/leicaefi-chip.c:161-243 | a general command that returned success delivers the device's answer to its own command and input, one that returned the command failure had its own command rejected, and that answer belongs to no other call |
| ProtocolMemory.ProgramWrites | src/chr/leicaefi-chr-flash.c:303-320 | after a write the cell holds the value and every other cell what it held |
| ProtocolMemory.EraseClears | src/chr/leicaefi-chr-flash.c:365-382 | after an erase a cell reads 0xFFFF exactly if it lies in the segment of the address or read so before, and other cells are unchanged |
| ProtocolMemory.InfoStays | src/chr/leicaefi-chr-flash.c:279-301 | no operation changes what the information cells hold |
| ProtocolMemory.EntryFits | src/chr/leicaefi-chr-flash.c:265-301 | each read in the history was answered with what the last successful write or erase before it left at its address, each information read with the stored value, each read of the mode with the mode last switched to |
| ProtocolMemory.ReadsReturnStored | src/chr/leicaefi-chr-flash.c:138-301 | in every genuine run a flash read, information read or read of the mode that returned Ok returned that value, a write or erase that returned Ok found writing enabled, and a mode switch that returned Ok left the mode asked for |
| ProtocolMemory.WrittenIsReadBack | src/chr/leicaefi-chr-flash.c:265-363 | from any resting state with writing enabled there is a run in which a write of any value to any address returns Ok and a read of that address then returns the value |
| ProtocolResults.ResultExplained | src/core/leicaefi-chip.c:161-243 | in any run, spurious handlers included: the I/O error exactly if one of the call's own bus accesses failed and no handler ran between its start and its rollback, the internal error exactly if one ran or the start found the word taken, the argument error exactly if the arguments are wrong, the interruption exactly if it was interrupted; and a read without any of these succeeds |
| ProtocolResults.FailedIsNotOk | src/core/leicaefi-chip.c:173-187 | a call with a failed bus access returns the I/O error, or the internal error if its rollback lost the race, and never Ok |
| ProtocolResults.IoErrorIff | src/chr/leicaefi-chr-flash.c:144-159 | in every genuine run a returned call has the I/O error if and only if one of its own bus accesses failed, and never has the internal error |
| ProtocolResults.WorkingIsAnswered | src/chr/leicaefi-chr-flash.c:138-301 | in every genuine run a valid call that was not interrupted and whose accesses succeeded has its answer in the history, and a read returned Ok and a value |
| ProtocolProgress.NoLostCompletion | src/core/leicaefi-irq.c:215-265 | in every run with clean interrupts, whenever a caller waits in Pending its completion is in exactly one place: the device, IFG, ERR with its announcement, or a pass that will run the handler |
| ProtocolProgress.RankFalls | src/core/leicaefi-chip.c:189-243 | no step takes the lock holder further from giving the mutex back, and its own steps, the device's answer and the steps of the interrupt thread bring it strictly closer |
| ProtocolProgress.SomeStepHelps | src/core/leicaefi-chip.c:189-243 | while the mutex is held a step that brings its holder closer is possible |
| ProtocolProgress.UsefulStepsBounded | src/core/leicaefi-chip.c:189-243 | in every clean continuation in which the mutex stays held, the holder's steps, the device's answers and the thread's steps towards the handler use up the measure: their number and what is left of it never exceed what it was |
| ProtocolProgress.EveryHolderEnds | src/core/leicaefi-chip.c:229-243 | after any clean run, every clean continuation has at most 53 such steps before the mutex is given back, and once they are used up the mutex is free and the word Idle |
| ProtocolProgress.HolderCanEnd | src/core/leicaefi-chip.c:189-243 | from every healthy state some continuation made only of steps of the holder, the device and the thread gives the mutex back |
| ProtocolProgress.CanEndIff | src/core/leicaefi-irq.c:225-262 | with interrupts from the device only and both lines on at the end, the holder, the device and the thread can bring the call to its end if and only if no completion was dropped and a latched error is still announced |
| ProtocolProgress.CanEndUnlessLost | src/core/leicaefi-irq.c:225-262 | the same as a condition on the events of the run: none drops the completion, and none strands an error that is not announced afterwards |
| ProtocolProgress.DroppedIff | src/core/leicaefi-irq.c:225-262 | completions have been dropped exactly if some event of the run is a failed read or a disabled line with the completion in it |
| ProtocolProgress.StrandedIff | src/core/leicaefi-irq.c:225-243 | an error is latched without its announcement exactly if a failed read of the run used the announcement up and no error was announced since |
| ProtocolProgress.DroppedForever | src/core/leicaefi-irq.c:234-243 | after a dropped completion the mutex stays held in every continuation |
| ProtocolProgress.StrandedForever | src/core/leicaefi-irq.c:234-243 | after a stranded error the mutex stays held in every continuation in which no other error is announced |
| ProtocolProgress.DroppedRun | src/core/leicaefi-irq.c:234-243 | a run in which a failed read of ERR drops the completion of a general command, after which the call cannot end |
| ProtocolProgress.StrandedRun | src/core/leicaefi-irq.c:234-243 | a run in which a failed read of ERR leaves the error of a general command behind with nothing dropped, after which the call cannot end |
| ProtocolInstances.ViewIsRun | src/core/leicaefi-irq.c:215-265 | what one instance sees of any run of both, with one IFG, ERR, mask and thread, is a run of that instance and leads to its state |
| ProtocolInstances.BothLinearize | src/core/leicaefi-irq.c:215-265 | however the calls of both instances interleave, those of each are linearized on its own memory |
| ProtocolInstances.NoneLostBetween | src/core/leicaefi-irq.c:215-265 | in a clean run of both, each instance's awaited completion is in exactly one place with nothing dropped, and its word is Idle when its mutex is free |
| DriverCode.Driver.SetState | src/core/leicaefi-chip.c:42-56 | the compare-and-swap of the state word and its return code |
| DriverCode.Driver.CompleteIrq | src/core/leicaefi-chip.c:246-259 | the completion handler is the handler step of the transition system |
| DriverCode.Driver.ErrorIrq | src/core/leicaefi-chip.c:261-274 | the error handler is the handler step of the transition system |
| DriverCode.Driver.Lock | src/core/leicaefi-chip.c:32-35 | the mutex is taken at the first look that finds it free, while all others go on; otherwise the attempt is interrupted, or gives up with the mutex held by somebody |
| DriverCode.Driver.Interfere | src/core/leicaefi-chip.c:189-191 | the other parties take, in order, each step offered in the slot that is possible at its turn, and cannot move the lock holder or change its result |
| DriverCode.OfferedHappens | src/core/leicaefi-chip.c:189-191 | a step that is offered and possible happens, whoever of the others takes it |
| DriverCode.ControlBits | src/chr/leicaefi-chr-flash.c:86-383 | the bits of the flash control register that start an erase, a mode switch and a check of either image |
| DriverCode.Driver.Await | src/core/leicaefi-chip.c:189-191 | the wait ends only with the word out of Pending, and otherwise is still waiting in Pending |
| DriverCode.Driver.Settle | src/core/leicaefi-chip.c:193-226 | the three branches after the wait are one step of the transition system, with the result of each |
| DriverCode.Driver.RollBack | src/core/leicaefi-chip.c:178-186 | the rollback after a failed write returns the internal error exactly if a handler had run before it or runs in its own slot, else the I/O error |
| DriverCode.Driver.Gencmd | src/core/leicaefi-chip.c:161-243 | the whole call leaves the state that the transition system reaches by exactly the slots used, in order and with their bus outcomes, and ends with the result recorded for it |
| DriverCode.Driver.SetMode | src/chr/leicaefi-chr-flash.c:47-136 | the same for the mode switch, with the checks before it |
| DriverCode.Driver.GetMode | src/chr/leicaefi-chr-flash.c:138-160 | the same for reading the mode |
| DriverCode.Driver.CheckChecksum | src/chr/leicaefi-chr-flash.c:162-263 | the same for the checksum check of the other image |
| DriverCode.Driver.FlashRead | src/chr/leicaefi-chr-flash.c:265-277 | the same for a flash read |
| DriverCode.Driver.InfoRead | src/chr/leicaefi-chr-flash.c:279-301 | the same for a read of the information flash, with its address check |
| DriverCode.Driver.FlashWrite | src/chr/leicaefi-chr-flash.c:303-363 | the same for a flash write |
| DriverCode.Driver.FlashErase | src/chr/leicaefi-chr-flash.c:365-425 | the same for a segment erase |
| DriverCode.Driver.WriteEnable | src/chr/leicaefi-chr-flash.c:427-449 | the same for the write-enable flag |
| DriverCode.Driver.Serve | src/chr/leicaefi-chr-flash.c:660-707 | a request that comes in is carried out by its own method, and the fields stay where a run from the initial state leads: the earlier run, the arrival, and the slots used |
| DriverRuns.CodeLinearizes | src/chr/leicaefi-chr-flash.c:265-449 | the results of the calls the code has carried out are those of one atomic memory |
| DriverRuns.CodeIdleIff | src/core/leicaefi-chip.c:167-187 | the code leaves the word Idle with the mutex free if and only if no handler ran between a start and its own rollback |
| DriverRuns.CodeExplains | src/core/leicaefi-chip.c:161-243 | every result the code returned is explained by what happened to that call in the run |
| DriverRuns.WorkingBusServes | src/chr/leicaefi-chr-flash.c:138-301 | a request served with a bus that works in every slot does not return the I/O error, and a valid read that is not turned back returns Ok and a value |
| DriverRuns.RunIsGenuine | src/core/leicaefi-chip.c:189-191 | the run of a call has interrupts from the device only if its schedule offers no others, so that the theorems about genuine runs apply to it |
| DriverRuns.ServedIsGenuine | src/chr/leicaefi-chr-flash.c:660-707 | a served request keeps the run genuine if its schedule offers only genuine interrupts |
| DriverRuns.FirstRequest | src/chr/leicaefi-chr-flash.c:660-707 | from a new driver through a request the fields follow a run from an initial state, and with genuine interrupts its calls are linearized |
| ThreadSteps.PassIsThread | src/core/leicaefi-irq.c:215-265 | for every outcome of the two register reads the interrupt thread's steps, uninterrupted, clear the same registers and run the same handlers as its code |
| IrqChip.BatchIsOneByOne | src/core/leicaefi-irq.c:76-115 | one clear and one set of the collected masks equal one write for each changed line |
| IrqChip.MasksDisjoint | src/core/leicaefi-irq.c:76-93 | the enable mask and the disable mask of one release have no bit in common |
| IrqChip.SwitchFollowsMask | src/core/leicaefi-irq.c:133-149 | switching one line in the register follows switching it in the mask; an error line changes nothing |
| IrqChip.IeIsImmediate | src/core/leicaefi-irq.c:66-115 | after any calls with successful writes, whenever the bus lock is released IE is 0x0001 plus 0x0002, 0x0010 and 0x0020 for the enabled lines 0, 2 and 3, as if it had been written on every call |
| IrqChip.SyncRightIff | src/core/leicaefi-irq.c:100-115 | from a right register, a release leaves IE right if and only if every write it needs succeeds |
| IrqChip.NotRepeated | src/core/leicaefi-irq.c:76-115 | a release with no line to change leaves IE as it is, right or wrong |
| IrqChip.IeIsLastWritten | src/core/leicaefi-irq.c:66-115 | whatever writes fail in a run, IE is the ERR bit and the lines as their last successful change left them |
| IrqChip.RightUnlessOdd | src/core/leicaefi-irq.c:76-115 | after any run a line stands on the chip as in the current mask if and only if an even number of its changes failed to be written since one was written |
| IrqChip.IeRightIff | src/core/leicaefi-irq.c:66-115 | after any run IE is right if and only if that number is even for every line that is no error line |
| IrqChip.NeverRepeated | src/core/leicaefi-irq.c:76-115 | a line that nobody asks for again stays in IE as it is through every later release, even if its write failed |
| IrqChip.WakeConserved | src/core/leicaefi-irq.c:117-128 | whenever the bus lock is released the net wake calls forwarded to the parent equal the net wake calls of the lines |
| IrqChip.FiredOnce | src/core/leicaefi-irq.c:245-262 | exactly the enabled lines with a cause are handled, each once, in ascending order |
| IrqChip.FiringBits | src/core/leicaefi-irq.c:14-40 | lines 0, 2 and 3 have their causes in bits 1, 4 and 5 of IFG, lines 1 and 4 in bits 1 and 5 of ERR |
| IrqChip.IrqChipDriver.Init | src/core/leicaefi-irq.c:295-338 | success leaves IE at 0x0001 and no cause latched; the first failing access ends it, and the registers are left as the accesses before it made them |
| IrqChip.IrqChipDriver.SyncUnlock | src/core/leicaefi-irq.c:66-131 | the loops over lines and wake calls compute the specified release of the bus lock |
| IrqChip.IrqChipDriver.Collect | src/core/leicaefi-irq.c:76-93 | the loop takes over the requested mask and collects exactly the changed lines that are no error lines |
| IrqChip.IrqChipDriver.SetWakeLine | src/core/leicaefi-irq.c:167-180 | a wake call only counts |
| IrqChip.IrqChipDriver.EnableLine | src/core/leicaefi-irq.c:133-140 | enabling a line changes only its requested mask |
| IrqChip.IrqChipDriver.DisableLine | src/core/leicaefi-irq.c:142-149 | disabling a line changes only its requested mask |
| IrqChip.IrqChipDriver.Thread | src/core/leicaefi-irq.c:215-265 | which registers one run of the thread clears and which lines it handles, for every outcome of its reads and in the bits of IFG and ERR |
| BlinkDelay.NormalisesIff | src/leds/leicaefi-leds.c:321-344 | the reported delay is the least positive multiple of 250 ms not below the request, capped at 60000, if and only if rounding up does not wrap |
| BlinkDelay.CountIsZeroIff | src/leds/leicaefi-leds.c:330-344 | counts are at most 240, and zero if and only if rounding up wraps |
| BlinkDelay.Monotone | src/leds/leicaefi-leds.c:321-361 | of two requests whose rounding does not wrap, the longer is never reported as a shorter delay |
| BlinkDelay.Idempotent | src/leds/leicaefi-leds.c:321-361 | a reported delay is reported unchanged when asked for |
| BitPattern.DoublingEnds | src/leds/leicaefi-leds.c:485-497 | doubling a length reaches exactly 64 if and only if it is a power of two up to 64 |
| BitPattern.Replicate | src/leds/leicaefi-leds.c:478-497 | the loops accept exactly those lengths, shift by less than 64 throughout, and store the pattern repeated over all bits |
| LedFields.RewrittenField | src/leds/leicaefi-leds.c:133-172 | clear-then-set under a mask replaces the masked fields and leaves every other field alone |
| LedFields.FieldAlone | src/leds/leicaefi-leds.c:174-193 | writing field k leaves the two bits at offset 2k at 2 or 0 and every other bit as it was |
| LedDriver.LampsAtOffsets | src/leds/leicaefi-leds.c:67-87 | LED i is the two bits at offset 2i of the first register, or 2(i - 8) of the second, with 0 off, 1 fully on, 2 dimmed and 3 dimmed blinking |
| LedDriver.BatchIsPerLed | src/leds/leicaefi-leds.c:267-291 | the two batched register writes change each LED as if it had been written alone |
| LedDriver.LedDevice.SetRegister | src/leds/leicaefi-leds.c:133-172 | one masked register write, skipped for an empty mask |
| LedDriver.LedDevice.SetBrightnessUnlocked | src/leds/leicaefi-leds.c:174-193 | exactly one lamp is written, and none for a battery LED without the refresh thread; the two bits at the offset of the LED become 2 or 0 and every other bit of both registers stays |
| LedDriver.LedDevice.SetBrightness | src/leds/leicaefi-leds.c:195-223 | the same for the registers; brightness 0 also ends blinking, and no other LED changes |
| LedDriver.LedDevice.UpdateBlinking | src/leds/leicaefi-leds.c:225-308 | the refresh of all blinking LEDs equals the refresh of each LED by itself |
| LedDriver.LedDevice.SetBlink | src/leds/leicaefi-leds.c:310-368 | counts stored, lamp off in its two bits, and delays reported for a blink call, in wrapping arithmetic |
| LedDriver.LedDevice.UpdatePatterns | src/leds/leicaefi-leds.c:372-423 | the refresh of all patterned LEDs equals the refresh of each LED by itself, and the step advances modulo 64 |
| LedDriver.LedDevice.Refresh | src/leds/leicaefi-leds.c:434-446 | one round of the refresh thread |
| LedDriver.LedDevice.SetPattern | src/leds/leicaefi-leds.c:458-517 | the pattern call is accepted exactly for the supported step delay and lengths, stores the repeated pattern, and otherwise changes nothing |
| LedDriver.LedDevice.ClearPattern | src/leds/leicaefi-leds.c:519-536 | the pattern is gone and the lamp off |
| LedDriver.LedDevice.Begin | src/leds/leicaefi-leds.c:616-642 | LED 7 is dimmed, the battery LEDs are as they were and all others are off |
| LedDriver.LedDevice.Remove | src/leds/leicaefi-leds.c:649-679 | whatever brightness calls come during unregistering, the battery fields stay, green power is fully on and all others are off |
| LedRuns.CacheFitsIff | src/leds/leicaefi-leds.c:195-223 | a call or refresh keeps the cached state of an LED in line with its hardware field if and only if it is no brightness call that contradicts the cache |
| LedRuns.CacheFitsInRuns | src/leds/leicaefi-leds.c:225-423 | over every run without such calls the field of a blinking or patterned LED is Dimmed when the cache is set and Off when it is not |
| LedRuns.LostBrightness | src/leds/leicaefi-leds.c:195-223 | after a brightness call on any blinking LED in its dark phase the next refresh leaves it lit, where without the call it is off |
| LedRuns.UnlikeNeverMirrors | src/leds/leicaefi-leds.c:248-265 | over any run without calls on it, an LED never mirrors its neighbour if it is even, or its counts differ, or the neighbour does not have both counts equal to its own, as one that is off, and gets no such blink call |
| LedRuns.LostThroughDark | src/leds/leicaefi-leds.c:195-223 | an LED that no refresh of the run finds mirroring its neighbour stays lit through the rest of that dark phase, over every run without further calls on it |
| LedRuns.OthersLeaveLed | src/leds/leicaefi-leds.c:225-423 | a call on another LED, or a refresh of an LED that is not active, changes neither its state nor its lamp |
| LedRuns.IdleLedStays | src/leds/leicaefi-leds.c:225-423 | over every run an LED that is not active changes only through calls on itself |
| LedRuns.BlinkClosedForm | src/leds/leicaefi-leds.c:239-307 | refresh n after a blink call shows the LED lit exactly when n mod (on + off) is below on, whatever happens to other LEDs; a mirroring LED shows the opposite of its neighbour |
| LedRuns.LitShownWithin | src/leds/leicaefi-leds.c:293-307 | the refreshes of any part of a run after a blink call that leave the lamp lit are as many as the closed form says, if none of them finds the LED mirroring its neighbour |
| LedRuns.LitShare | src/leds/leicaefi-leds.c:293-307 | of any on + off refreshes in a row that do not find the LED mirroring its neighbour exactly `on` leave its lamp lit |
| LedRuns.PairsAlternate | src/leds/leicaefi-leds.c:248-265 | two neighbours that blink alike show opposite states after every refresh, whenever each was started |
| LedRuns.PairShare | src/leds/leicaefi-leds.c:248-265 | while two neighbours blink alike, the refreshes that leave the one lit and those that leave the other lit add up to all refreshes, whenever and however often either was started |
| LedRuns.AlikePairShare | src/leds/leicaefi-leds.c:248-265 | the same over every run without calls on the two |
| LedRuns.MirrorShare | src/leds/leicaefi-leds.c:248-265 | of any 2n refreshes in a row exactly n leave an LED lit that mirrors a neighbour with both counts n |
| LedRuns.PatternPhaseLock | src/leds/leicaefi-leds.c:380-422 | a refresh shows bit (time mod length) of an installed pattern, whenever it was installed |
| LedRuns.StepCounts | src/leds/leicaefi-leds.c:420-422 | the pattern step is the number of refreshes modulo 64 |
| LedRuns.CountsStayTogether | src/leds/leicaefi-leds.c:338-351 | a blink call leaves both counts zero or both positive if and only if both delays wrap or neither does |
| LedRuns.CountsInRuns | src/leds/leicaefi-leds.c:210-213 | over every run of calls without a lone zero count, the counts stay both zero or both positive |
| BusFrames.SameFrameIff | src/core/leicaefi-chip.c:58-159 | two accesses send the same frame if and only if register, payload and kind agree, a plain write and a clearing of bits being one kind |
| BusFrames.FrameBytes | src/core/leicaefi-chip.c:58-159 | exactly register numbers below 64 are sent; the command byte is the number, plus 64 for setting bits or 128 for reading, and the payload is the one given |

## Left out

- Probing and removing the devices other than the LEDs, device creation, device-tree tables and module registration.
- Copying ioctl arguments from and to user space, ioctl numbers, and logging: the model starts at the locked request bodies. A failed copy to user space after a read is not distinguished from success.
- The raw register ioctls: they bypass the locks, and are excluded by hypothesis.
- Keys, one-wire, power source, LED test mode, battery and charger reads, version decoding, the reboot hook: single accesses and decoding.
- Real time: sleeping after a mode switch, delays between LED register writes, the refresh period; a refresh is one step under the LED lock.
- The interrupt pin and its edges, and wait-queue internals: the wait is a guard on the state word, and a pass may start at any time.
- Reading the brightness back, and the return codes of failing LED register writes: bus failures of the LED part are excluded by hypothesis.
- MOD_ID other than its mode bit, and the answer to a command other than its value and whether it was rejected.
- Nested handlers of other drivers on their own lines: they do not touch the state of this model.
- DriverCode.Driver.Await: looks at the word at most `patience` times, and then reports that the call still waits; the wait in the source has no bound.
- DriverCode.Driver.Lock: looks at the mutex at most `patience` times, and then is interrupted or reports that the call is still outside; who gets a free mutex first is up to the schedule.
- Setting the trigger type of a line, which accepts one type and changes nothing.
