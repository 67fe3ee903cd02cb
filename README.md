# Qiskit Terra pulse compilation core, modelled in Dafny

This project models the part of Qiskit Terra that builds pulse programs and
lowers them to the Qobj wire format. It proves properties of that model. Six
source files make up the core, and each has its own Dafny module:

| module | file | models |
|---|---|---|
| `Instructions` (instruction.dfy) | qiskit/pulse/instructions/instruction.py | the immutable pulse `Instruction` value: its validating initializer, its timing queries, how it flattens, the times `append` and `__or__` give, and equality and hashing |
| `PulseSchedule` (pulse_schedule.dfy) | qiskit/pulse/schedule/pulse_schedule.py | `TimedPulse` with its object identity, and `PulseSchedule` as a class whose `children` list `add`, `add_block` and `remove` update in place, under the invariant that no two pulses on one channel overlap; recursive start and end times; the command library |
| `Builder` (builder.dfy) | qiskit/pulse/builder.py | `_PulseBuilder` as a class holding the active block, the pending lazy circuit, the settings and the stack of open scopes; flush-before-change; transform, `inline`, settings and phase-offset scopes; the module-level DSL functions over an explicit handle to the ambient builder |
| `Assembler` (assembler.dfy) | qiskit/compiler/assembler.py | `assemble_circuits`: register flattening, `bfunc` synthesis with mask, value and `0x%X` hex, register mirroring and the global maxima; `_replaced_with_user_los`; the LO-configuration shapes of `assemble_schedules` |
| `Lowering` (lowering.dfy) | qiskit/pulse/lowering.py | `LowerQobj.lower` with its frequency checks, `_assemble_experiments`, `_assemble_instructions` (delays dropped, acquires grouped and bundled, a content-keyed pulse library, the maximum memory slot), `_validate_meas_map`, `_bundle_channel_indices` |
| `VariableTables` (variabletable.dfy) | qiskit/circuit/variabletable.py | `VariableTable` as a class over an insertion-ordered key list and a map from parameter to `(instruction, index)` bindings; `__setitem__` writes through into each bound `CircuitInstruction`'s `params` in place |

`Common` (common.dfy) holds the shared vocabulary:

- `Option`, and `Result`/`Outcome` with one `Error` constructor per exception class the code raises;
- channels;
- Python's `list.index`;
- the `'Experiment-%d'` experiment name.

Exceptions are modelled as error results, never as preconditions. Each
stateful operation is a method. Its `ensures` ties the new state, or its
result, to a specification function of the old state. The properties the
source promises are then proved about those functions as lemmas.

Collaborators the core calls but that are not part of this model are
parameters or abstract values:

- the builder's environment `Env`, which holds the backend, circuit compilation and the alignment transforms;
- the SHA-256 hash;
- the parametric-pulse expansion;
- the qobj converters.

Each is constrained only by the contracts the core relies on.

The model follows the code, except for the five defects listed under
Findings. For each of these, one member models the code as written, and the
rest of the model builds on the corrected member:

- `PulseSchedule.Duration` and `PulseSchedule.PulseScheduleObj.StartTimeOf` build on the corrected `PulseSchedule.EndTime` and `PulseSchedule.StartTime`.
- `Lowering.CollectInstructions`, `Lowering.BundlesFollowInstructions`, `Lowering.BundleGroups`, `Lowering.AssembleInstructions`, `Lowering.AssembleExperiment`, `Lowering.AssembleSchedules` and `Lowering.Lower` group acquires by the corrected `(time, duration)` key.
- `Assembler.AssembleSchedulesLo` uses the corrected `Assembler.ExperimentConfigs` and `Assembler.Sweep`.
- `Instructions.HashKeyAgreesWithEqual` states the corrected hash key.

Three more choices follow the code:

- **Acquire grouping.** The code keys acquires on `(time, instruction.command)`, and `command` is always `None` for the new instruction classes (qiskit/pulse/instructions/instruction.py:88-96), so acquires are grouped by time alone. The docstring of `_validate_meas_map` (qiskit/pulse/lowering.py:338-339) describes acquires grouped by start time and duration. The model keeps both keys: the as-written one is shown to merge acquires of different durations, and the time-and-duration key is the one the rest of the model uses.
- **Overlap is not an exception.** An overlapping `add_block` returns `False` and logs a warning instead of raising a conflict error.
- **Partial effects are kept on error.** `add` with a list keeps the commands it had already added when it fails. `__setitem__` keeps the writes it made before an `IndexError`.

**Pulse identity.** `TimedPulse` defines no `__eq__`, so `remove` finds a child by object identity. Each modelled pulse carries its identity `obj`. A pulse never changes after its initializer, so datatype equality on pulses is identity. The identities `add` allocates are a parameter: the next one is required to be above every identity in the list, and each command allocates one.

## Model

| member | source | states |
|---|---|---|
| `Common.IndexOf` | qiskit/compiler/assembler.py:99-106 | `list.index`: the first position holding `x`, and `None` exactly when `x` is absent |
| `Instructions.ChannelsOf` | qiskit/pulse/instructions/instruction.py:72-74 | the channel list is accepted iff every element is a channel, and then it keeps them in order |
| `Instructions.New` | qiskit/pulse/instructions/instruction.py:64-79 | a non-integer duration, then a negative duration, then a non-channel element, each give their `PulseError` in that order; construction succeeds iff none applies, and then keeps kind, operands, name, duration and channels |
| `Instructions.TimeslotsOnePerChannel` | qiskit/pulse/instructions/instruction.py:77 | the time slots have exactly the instruction's channels as keys, each mapped to the single slot `(start_time, stop_time)` |
| `Instructions.AnyIn` | qiskit/pulse/instructions/instruction.py:179 | true iff some queried channel is one of the instruction's |
| `Instructions.ChStopTime` | qiskit/pulse/instructions/instruction.py:173-181 | `duration` when a queried channel is the instruction's, 0 when none is |
| `Instructions.ChannelTimesWithinSpan` | qiskit/pulse/instructions/instruction.py:119-181 | `start_time` and `ch_start_time` are 0 for any channels; `ch_stop_time` lies in `[0, duration]` and is `duration` on the instruction's own channels; `ch_duration` equals `ch_stop_time`; `stop_time` is `duration` |
| `Instructions.FlattenedIsSinglePair` | qiskit/pulse/instructions/instruction.py:153-197 | flattening at offset `t` yields exactly `[(t, self)]`, `flatten` returns the instruction, `timed_instructions` is `[(0, self)]` |
| `Instructions.SharedChannels` | qiskit/pulse/instructions/instruction.py:233 | exactly the channels common to both instructions |
| `Instructions.Intersect` | qiskit/pulse/instructions/instruction.py:233 | a channel is in the result iff it is in both lists |
| `Instructions.AppendTime` | qiskit/pulse/instructions/instruction.py:224-235 | `append` keeps `self` at 0 and places the other at `duration` when the channel sets meet, at 0 when disjoint; `__or__` (lines 291-293) places both at 0 |
| `Instructions.EqualIsEquivalenceIgnoringName` | qiskit/pulse/instructions/instruction.py:275-280 | equality is reflexive, symmetric and transitive, ignores the name, and holds iff the type and operands agree |
| `Instructions.HashKeyAsWrittenDisagreesWithEqual` | qiskit/pulse/instructions/instruction.py:282-285 | two instructions equal under `__eq__` that differ only in name have different hash keys as written |
| `Instructions.HashKeyAgreesWithEqual` | qiskit/pulse/instructions/instruction.py:275-285 | with the name dropped from the hash key, equal hash keys hold iff the instructions are equal |
| `Instructions.ConstructorsWellFormed` | qiskit/pulse/instructions/instruction.py:46-79 | building a `Play` always succeeds and keeps pulse and channel; building an `Acquire` succeeds iff its duration is non-negative, and keeps channel, memory slot and register slot |
| `PulseSchedule.MakeTimedPulse` | qiskit/pulse/schedule/pulse_schedule.py:45-52 | a `TimedPulse` exists iff the channel supports the command's class, else the bare exception; it keeps command, channel and `t0`, and is the object it was run on |
| `PulseSchedule.PulseSpan` | qiskit/pulse/schedule/pulse_schedule.py:54-61 | `end_time - start_time == duration == command.duration >= 0` |
| `PulseSchedule.ConflictsSymmetric` | qiskit/pulse/schedule/pulse_schedule.py:152-155 | the half-open same-channel interval test is symmetric |
| `PulseSchedule.StartOf` | qiskit/pulse/schedule/pulse_schedule.py:135-139 | `_start_time` succeeds iff no nested block is empty (else `min([])`'s `ValueError`), and then is the minimum start over all leaves |
| `PulseSchedule.MinStart` | qiskit/pulse/schedule/pulse_schedule.py:139 | the minimum over a non-empty children list is attained by a leaf and bounds every leaf start |
| `PulseSchedule.EndOf` | qiskit/pulse/schedule/pulse_schedule.py:141-145 | `_end_time` succeeds iff no nested block is empty, and then is the maximum end over all leaves |
| `PulseSchedule.MaxEnd` | qiskit/pulse/schedule/pulse_schedule.py:145 | the maximum over a non-empty children list is attained by a leaf and bounds every leaf end |
| `PulseSchedule.EndTimeAsWrittenNeverReturns` | qiskit/pulse/schedule/pulse_schedule.py:126-130 | as written, `end_time` and `duration` never return; on any non-empty schedule they raise `TypeError` from raising an `int` |
| `PulseSchedule.EndTime` | qiskit/pulse/schedule/pulse_schedule.py:126-127 | the intended `end_time`: defined iff there are children and none is an empty block, and then the maximum leaf end |
| `PulseSchedule.StartTime` | qiskit/pulse/schedule/pulse_schedule.py:123-124 | defined iff there are children and none is an empty block, and then the minimum leaf start |
| `PulseSchedule.Duration` | qiskit/pulse/schedule/pulse_schedule.py:129-130 | the intended `duration` is defined exactly when `end_time` is, and is never negative |
| `PulseSchedule.SpanNonNegative` | qiskit/pulse/schedule/pulse_schedule.py:123-130 | the minimum start of a set of pulses is at most their maximum end |
| `PulseSchedule.AddBlockPreservesNoOverlap` | qiskit/pulse/schedule/pulse_schedule.py:107-121 | `add_block` returns `True` iff the block is a pulse that conflicts with no child, and only then changes the children; the no-overlap invariant is kept |
| `PulseSchedule.AddKeepsInvariant` | qiskit/pulse/schedule/pulse_schedule.py:84-105 | `add` keeps the invariant, only appends, and every pulse it appends is a newly allocated object on the given channel at the given start time, the objects distinct and in allocation order |
| `PulseSchedule.AddListKeepsInvariant` | qiskit/pulse/schedule/pulse_schedule.py:100-105 | the same for a list of commands added one by one |
| `PulseSchedule.AddKeepsFresh` | qiskit/pulse/schedule/pulse_schedule.py:97-98 | after `add`, every pulse in the list is an object allocated before the next identity, so later pulses are new objects |
| `PulseSchedule.AddAppendsInOrder` | qiskit/pulse/schedule/pulse_schedule.py:97-105 | `add` on a (possibly nested) argument adds its commands in visiting order, command `j` as the pulse with identity `n + j` on the given channel at the given start time, until the first one refused; `True` means all were added. With no value of another type in the argument, anything short of all means that the next command was refused: its pulse could not be built and that error is the result, or it overlaps the list and the result is `False` |
| `PulseSchedule.AddListAppendsInOrder` | qiskit/pulse/schedule/pulse_schedule.py:100-105 | the same for the items of a list |
| `PulseSchedule.AddListStopsAtFirstFailure` | qiskit/pulse/schedule/pulse_schedule.py:100-105 | for a list of commands: the result is `True` iff every command was added, in order; otherwise the commands before the first refused one stay added, in order, and its refusal is the result |
| `PulseSchedule.RemoveFirst` | qiskit/pulse/schedule/pulse_schedule.py:164 | `list.remove` on pulses compared by identity: deletes the first child that is the same object, and `ValueError` iff there is none |
| `PulseSchedule.RemoveIsByIdentity` | qiskit/pulse/schedule/pulse_schedule.py:42-64 | after `add_block(p)`, removing a different object with the same command, channel and start time is a `ValueError` (line 164), while removing `p` itself gives back the earlier list |
| `PulseSchedule.RemoveKeepsInvariant` | qiskit/pulse/schedule/pulse_schedule.py:159-164 | removing a present child succeeds, keeps the invariant and takes exactly one copy out of the multiset of children |
| `PulseSchedule.LibraryFoldProperties` | qiskit/pulse/schedule/pulse_schedule.py:176-181 | the library has no duplicates and holds exactly the functional and sample pulse commands of the children |
| `PulseSchedule.LibraryFoldFirstAppearance` | qiskit/pulse/schedule/pulse_schedule.py:176-181 | the library of a prefix is a prefix of the library, so the commands appear in order of first appearance |
| `PulseSchedule.PulseScheduleObj.constructor` | qiskit/pulse/schedule/pulse_schedule.py:70-82 | a new schedule has no children and keeps its channel list and name |
| `PulseSchedule.PulseScheduleObj.FlatPulseSequence` | qiskit/pulse/schedule/pulse_schedule.py:183-188 | `NotImplementedError` iff a child is not a pulse, else the children themselves |
| `PulseSchedule.PulseScheduleObj.IsOccupiedTime` | qiskit/pulse/schedule/pulse_schedule.py:147-157 | `NotImplementedError` for a block that is not a pulse, else whether some child on the same channel overlaps it |
| `PulseSchedule.PulseScheduleObj.AddBlock` | qiskit/pulse/schedule/pulse_schedule.py:107-121 | the result and new children are those of the `add_block` specification, and the invariant holds |
| `PulseSchedule.PulseScheduleObj.Add` | qiskit/pulse/schedule/pulse_schedule.py:84-105 | one command, a nested list or neither (`None`), as the `add` specification, each command allocating a new pulse; keeps the invariant and the freshness of the next identity |
| `PulseSchedule.PulseScheduleObj.Remove` | qiskit/pulse/schedule/pulse_schedule.py:159-164 | succeeds iff the very object is a child, and then removes its first occurrence; otherwise `ValueError` and nothing changes |
| `PulseSchedule.PulseScheduleObj.CommandLibrary` | qiskit/pulse/schedule/pulse_schedule.py:170-181 | `NotImplementedError` iff a child is not a pulse, else the library fold over the children's commands |
| `PulseSchedule.PulseScheduleObj.StartTimeOf` | qiskit/pulse/schedule/pulse_schedule.py:123-124 | `start_time` of the object: the minimum leaf start, an error for an empty schedule |
| `Builder.InstrNodes` | qiskit/pulse/builder.py:999-1003 | inline re-emits each instruction as its own node, in order |
| `Builder.InstrNodesBag` | qiskit/pulse/builder.py:999-1003 | the re-emitted nodes hold exactly the instructions given |
| `Builder.MergeRegistersProperties` | qiskit/pulse/builder.py:458-462 | adding a circuit's classical registers keeps the old ones in front, keeps names distinct, and leaves every added register name present; a `CircuitError` for a repeated name is swallowed |
| `Builder.Compose` | qiskit/pulse/builder.py:463 | in-place composition appends the circuit's operations and keeps the size of the pending circuit |
| `Builder.AlignmentOf` | qiskit/pulse/builder.py:904-927 | only `'left'`, `'right'` and `'sequential'` are accepted, each to its own alignment; anything else is a `PulseError` |
| `Builder.FlushFacts` | qiskit/pulse/builder.py:427-444 | a flush appends the compiled pending circuit to the active block (nothing when it is empty), resets the pending circuit to a fresh empty one, changes nothing else, and is idempotent |
| `Builder.FlushBeforeChange` | qiskit/pulse/builder.py:376-425 | `append_instruction`, `append_block`, `set_active_block`, `compile` and both settings setters act on the flushed state: the pending program lands in the block before their own change |
| `Builder.CallInnerSpec` | qiskit/pulse/builder.py:454-463 | the pending circuit exists afterwards, created with the backend's qubit count when absent; its registers are the old ones merged with the called circuit's, its operations are the old ones followed by the called ones, and nothing else changes |
| `Builder.CallCircuitSpec` | qiskit/pulse/builder.py:465-490 | `call_circuit` fails iff the builder has no backend, with `BackendNotSet` |
| `Builder.LazyCallOnlyExtends` | qiskit/pulse/builder.py:485-486 | a lazy call leaves block, root and scopes alone and only extends the pending circuit's operations |
| `Builder.EagerCallCompilesAlone` | qiskit/pulse/builder.py:487-490 | an eager call flushes, then appends the circuit compiled on its own as one block (none when it is empty), and leaves nothing pending |
| `Builder.EnterSpec` | qiskit/pulse/builder.py:800-809 | entering any context pushes exactly one scope onto the stack |
| `Builder.ExitSpec` | qiskit/pulse/builder.py:810-817 | leaving a context pops exactly the innermost scope |
| `Builder.ScopesNestStrictly` | qiskit/pulse/builder.py:800-820 | leaving the scope just entered restores the enclosing scope stack (LIFO) |
| `Builder.TransformScopeRoundTrip` | qiskit/pulse/builder.py:800-820 | a transform scope starts from an empty block; on exit the parent is the saved block after flushing, plus one node holding the transform of the flushed inner block |
| `Builder.InlineScopeRoundTrip` | qiskit/pulse/builder.py:993-1003 | on leaving `inline`, the parent keeps its flushed content as a prefix, gains only bare instructions, and these are exactly the inner block's instructions |
| `Builder.SettingsScopeRoundTrip` | qiskit/pulse/builder.py:1036-1061 | the settings scope merges the overrides on entry and restores the saved settings on exit, keeping the block built inside |
| `Builder.PhaseOffsetRoundTrip` | qiskit/pulse/builder.py:1092-1125 | `phase_offset` emits `ShiftPhase(phase, ch)` on entry and `ShiftPhase(-phase, ch)` on exit |
| `Builder.BuilderExitAppendsAlignedProgram` | qiskit/pulse/builder.py:333-349 | leaving the builder compiles the default-aligned body into the root as one node, and clears block and scopes |
| `Builder.PulseBuilder.constructor` | qiskit/pulse/builder.py:276-331 | a new builder has the given root and settings, an empty block, no pending circuit and no scopes |
| `Builder.PulseBuilder.NumQubits` | qiskit/pulse/builder.py:365-369 | the backend's qubit count, and `BackendNotSet` iff there is no backend |
| `Builder.PulseBuilder.Flush` | qiskit/pulse/builder.py:427-444 | the new state is the flush specification of the old one |
| `Builder.PulseBuilder.SetActiveBlock` | qiskit/pulse/builder.py:403-407 | flushes, then replaces the active block |
| `Builder.PulseBuilder.AppendBlock` | qiskit/pulse/builder.py:409-416 | flushes, then appends the block as one node |
| `Builder.PulseBuilder.CallSchedule` | qiskit/pulse/builder.py:446-448 | the same as `append_block` |
| `Builder.PulseBuilder.AppendInstruction` | qiskit/pulse/builder.py:418-425 | flushes, then appends the instruction |
| `Builder.PulseBuilder.SetTranspilerSettings` | qiskit/pulse/builder.py:376-380 | flushes, then replaces the transpiler settings |
| `Builder.PulseBuilder.SetSchedulerSettings` | qiskit/pulse/builder.py:387-391 | flushes, then replaces the scheduler settings |
| `Builder.PulseBuilder.Compile` | qiskit/pulse/builder.py:393-401 | flushes, appends the active block to the root, empties the block and returns the root |
| `Builder.PulseBuilder.CallInner` | qiskit/pulse/builder.py:454-463 | creates the pending circuit if there is none, merges the registers and composes the circuit |
| `Builder.PulseBuilder.CallCircuit` | qiskit/pulse/builder.py:465-490 | `BackendNotSet` with nothing changed iff there is no backend, else the lazy or eager call specification |
| `Builder.PulseBuilder.CallGate` | qiskit/pulse/builder.py:492-521 | wraps the gate in a one-operation circuit over all qubits and calls it |
| `Builder.PulseBuilder.Open` | qiskit/pulse/builder.py:800-807 | entering a context, as its specification |
| `Builder.PulseBuilder.Enter` | qiskit/pulse/builder.py:333-342 | opens the default alignment scope and returns the root program |
| `Builder.PulseBuilder.ExitScope` | qiskit/pulse/builder.py:808-817 | leaving the innermost context: the `inline` loop re-appends the inner instructions in time order, the other contexts restore their saved state |
| `Builder.PulseBuilder.Exit` | qiskit/pulse/builder.py:344-349 | flushes, closes the alignment scope and compiles into the root, which it returns as the program the `with` target then holds |
| `Builder.Build` | qiskit/pulse/builder.py:524-571 | an unknown default alignment is refused; otherwise a fresh, empty builder over the given backend and settings |
| `Builder.ActiveBackend` | qiskit/pulse/builder.py:579-613 | `NoActiveBuilder` without a builder, `BackendNotSet` without a backend, else that backend |
| `Builder.NumQubitsOf` | qiskit/pulse/builder.py:640-657 | the active backend's qubit count, with its errors |
| `Builder.QubitChannels` | qiskit/pulse/builder.py:688-709 | the active backend's channels for the qubit, with its errors |
| `Builder.ItemChannelsMeaning` | qiskit/pulse/builder.py:712-725 | succeeds iff every item is a channel or a qubit (a qubit also needing a backend); a channel is in the result iff it is given, or belongs to a given qubit |
| `Builder.QubitsToChannels` | qiskit/pulse/builder.py:712-725 | the loop computes the channel-set specification |
| `Builder.PrefixErrorPersists` | qiskit/pulse/builder.py:716-724 | once an item fails, the whole call fails with that error |
| `Builder.AppendInstructionIn` | qiskit/pulse/builder.py:621-637 | `NoActiveBuilder` iff there is no builder, else `append_instruction` on it |
| `Builder.CallScheduleIn` | qiskit/pulse/builder.py:1490-1512 | `NoActiveBuilder` iff there is no builder, else `append_block` on it |
| `Builder.CallCircuitIn` | qiskit/pulse/builder.py:1515-1552 | the lazy circuit call, with both errors and no change on failure |
| `Builder.Call` | qiskit/pulse/builder.py:1555-1591 | dispatches a schedule to `call_schedule` and a circuit to `call_circuit`; any other target is a `PulseError` with nothing changed |
| `Builder.AcquireFor` | qiskit/pulse/builder.py:1361-1372 | an integer becomes its acquire channel; a memory slot becomes `mem_slot` and a register slot `reg_slot`; any other register is a `PulseError` |
| `Builder.AcquireIn` | qiskit/pulse/builder.py:1323-1372 | the acquire is appended iff it builds and a builder is active; a failure changes nothing |
| `Builder.MeasureRegister` | qiskit/pulse/builder.py:1725-1726 | the register defaults to `MemorySlot(qubit)` |
| `Builder.Measure` | qiskit/pulse/builder.py:1667-1735 | appends the backend's measurement of the qubit into that register and returns it; both backend errors leave the state unchanged |
| `Builder.MeasureAll` | qiskit/pulse/builder.py:1738-1774 | measures every qubit `q` into `MemorySlot(q)` and returns those slots |
| `Builder.OpenIn` | qiskit/pulse/builder.py:803-807 | `NoActiveBuilder` iff there is no builder, else the context is entered on it |
| `Builder.CloseIn` | qiskit/pulse/builder.py:808-817 | the context's exit on the builder it was entered on |
| `Assembler.RegLabels` | qiskit/compiler/assembler.py:63-64 | a register of size `s` gives labels `[name, 0] .. [name, s-1]` |
| `Assembler.LabelsCount` | qiskit/compiler/assembler.py:61-70 | the label count equals the sum of register sizes (`n_qubits`, `memory_slots`) |
| `Assembler.LabelsSpan` | qiskit/compiler/assembler.py:61-70 | register `r`'s labels sit contiguously at its offset |
| `Assembler.LabelAt` | qiskit/compiler/assembler.py:61-70 | every label belongs to exactly the register whose span holds it, with index relative to that offset |
| `Assembler.LabelsDistinct` | qiskit/compiler/assembler.py:61-70 | with distinct register names the labels are distinct |
| `Assembler.FlattenRegisters` | qiskit/compiler/assembler.py:61-80 | the loop computes the label list, the total size and the header size list |
| `Assembler.IntBitIsShift` | qiskit/compiler/assembler.py:140 | `(value >> j) & 1` is the floor of `value / 2^j` modulo 2, for negative values too |
| `Assembler.HexDigits` | qiskit/compiler/assembler.py:144-146 | uppercase hex digits with no leading zero |
| `Assembler.HexRoundTrip` | qiskit/compiler/assembler.py:143-147 | `"0x%X"` starts with `0x` and parses back to the number |
| `Assembler.BfuncBits` | qiskit/compiler/assembler.py:134-140 | the loop computes the mask and value bits |
| `Assembler.MaskBitOfRegister` | qiskit/compiler/assembler.py:137-139 | a mask bit is set iff the clbit belongs to the condition register |
| `Assembler.MaskNumberBit` | qiskit/compiler/assembler.py:134-139 | the mask number has exactly bits `o .. o+s-1` set |
| `Assembler.ValBitOfRegister` | qiskit/compiler/assembler.py:140 | value bit `o+j` is set iff bit `j` of the condition value is |
| `Assembler.ValNumberBit` | qiskit/compiler/assembler.py:134-140 | bit `o+j` of the value number is bit `j` of the condition value |
| `Assembler.ValWithinMask` | qiskit/compiler/assembler.py:134-140 | every set value bit is a mask bit (`val & ~mask == 0`) |
| `Assembler.BfuncSpansRegister` | qiskit/compiler/assembler.py:134-140 | the three bit facts together for one condition |
| `Assembler.Indices` | qiskit/compiler/assembler.py:99-106 | each argument maps to its first label index, and `ValueError` iff one is missing |
| `Assembler.BaseInstr` | qiskit/compiler/assembler.py:98-129 | a `ValueError` when a qubit or clbit is not among the flattened labels; otherwise name, `qubits` and `memory` only when there are arguments, and then exactly the flattened label index of each qubit and clbit, `register` mirroring `memory` exactly on measures of a conditional circuit, `params` exactly when the op has parameters, snapshot label and type (`IndexError` with fewer than two params), the unitary label |
| `Assembler.ConvertOne` | qiskit/compiler/assembler.py:130-153 | an unconditioned op gives one instruction; a conditioned one gives its `bfunc` then the op with `conditional = memory_slots + k` |
| `Assembler.BfuncPrecedesConditioned` | qiskit/compiler/assembler.py:130-153 | in the converted circuit the `bfunc` sits right before its instruction, and both use register `memory_slots + k`, where `k` counts the conditioned ops before it |
| `Assembler.ConversionWithin` | qiskit/compiler/assembler.py:94-153 | each op's conversion appears contiguously in the output, after all earlier ops' |
| `Assembler.RegistersOnlyOnMeasures` | qiskit/compiler/assembler.py:90-111 | `register` appears only on measures of a conditional circuit, and there it equals `memory` |
| `Assembler.ConvertOp` | qiskit/compiler/assembler.py:98-153 | the method computes one op's conversion |
| `Assembler.ConvertInstructions` | qiskit/compiler/assembler.py:94-153 | the loop computes the whole conversion, counting conditions from 0 |
| `Assembler.AssembleCircuit` | qiskit/compiler/assembler.py:52-156 | one circuit's experiment, as its specification |
| `Assembler.MaximaStep` | qiskit/compiler/assembler.py:157-160 | the running maxima take one more circuit into account |
| `Assembler.MaximaAreMaxima` | qiskit/compiler/assembler.py:157-163 | the global `n_qubits` and `memory_slots` bound every experiment's and are attained (0 for none) |
| `Assembler.AssembleCircuits` | qiskit/compiler/assembler.py:31-166 | succeeds iff every circuit converts; experiment `i` is circuit `i`'s, and the config has the maxima |
| `Assembler.ReplacedWithUserLos` | qiskit/compiler/assembler.py:169-183 | a new list in which entry `i` is the user frequency of the given channel kind with index `i` (the last given wins), else the default; `IndexError` iff a user index is out of range |
| `Assembler.LoConfigOf` | qiskit/compiler/assembler.py:248-255 | the config of one user dictionary: an `IndexError` iff one of its Drive or Measure indices is past the end of the defaults; otherwise `qubit_lo_freq` and `meas_lo_freq` are each absent exactly when the user entries leave every default as it is, and otherwise hold the defaults with the user's entries in place |
| `Assembler.ExperimentConfigs` | qiskit/compiler/assembler.py:242-258 | missing or empty defaults are a `QiskitError`; with defaults, the result is an `IndexError` iff some dictionary's indices fall outside them, and otherwise config `u` is that of user dictionary `u` |
| `Assembler.LoConfigsPerDictionary` | qiskit/compiler/assembler.py:247-256 | config `u` is built from user dictionary `u`, and any dictionary out of range makes the whole list an `IndexError` |
| `Assembler.MissingDefaultsIgnoredAsWritten` | qiskit/compiler/assembler.py:257-258 | as written, user frequencies without defaults silently yield no config, where the intended version fails |
| `Assembler.Sweep` | qiskit/compiler/assembler.py:261-298 | one config is global and the experiments are unique; several configs with one schedule sweep it in config order; equal counts pair by position; any other count is a `QiskitError` |
| `Assembler.SweepHeaderAsWrittenDiffers` | qiskit/compiler/assembler.py:271-278 | as written, a sweep labels its experiments with the input object's header, not the assembled one |
| `Assembler.AssembleSchedulesLo` | qiskit/compiler/assembler.py:242-298 | a configuration error is the result; otherwise the call succeeds iff the sweep over the configs does, a sweep error is the result, and on success the experiments are the sweep's, with the global LOs taken from the single config (or the defaults) |
| `Assembler.Names` | qiskit/compiler/assembler.py:224-226 | schedule `i` is named by its own name, or `Experiment-i` |
| `Lowering.Get` | qiskit/pulse/lowering.py:301 | dictionary lookup: `None` iff the key is absent, else a stored value for it |
| `Lowering.Put` | qiskit/pulse/lowering.py:294 | dictionary assignment: a new key goes last, an old key keeps its position; the key maps to the value; other keys are untouched; keys stay distinct |
| `Lowering.Replay` | qiskit/pulse/lowering.py:286-293 | rebuilding a `Play` never fails and keeps pulse, channel and name |
| `Lowering.Expanded` | qiskit/pulse/lowering.py:261-270 | a play of a parametric pulse whose shape the backend does not accept becomes a play of its sample expansion on the same channel under the same name; every other instruction is returned unchanged |
| `Lowering.Prepared` | qiskit/pulse/lowering.py:261-294 | a sample-pulse play is renamed, pulse and instruction alike, to the hash of its samples and keeps its channel; anything else is only expanded |
| `Lowering.ItemsHaveNoDelaysOrAcquires` | qiskit/pulse/lowering.py:252-308 | the converted items contain no delay and no acquire, and every sample play in them is named by its content hash |
| `Lowering.GroupsAreByKey` | qiskit/pulse/lowering.py:251-301 | the acquire map has distinct keys in first-seen order, and each key maps to exactly its acquires, in encounter order |
| `Lowering.MaxSlotIsMaximum` | qiskit/pulse/lowering.py:296-298 | `max_memory_slot` bounds every acquire's memory slot and is attained, or is 0 |
| `Lowering.LibraryIsContentKeyed` | qiskit/pulse/lowering.py:283-294 | the library keeps distinct keys, each the hash of its samples, so identical samples give one entry; every sample play's hash is a key |
| `Lowering.PutKeepsContentKeyed` | qiskit/pulse/lowering.py:294 | storing samples under their hash keeps the library content-keyed and free of duplicates |
| `Lowering.Qubits` | qiskit/pulse/lowering.py:377-378 | one qubit per acquire, in order |
| `Lowering.MemSlotsMeaning` | qiskit/pulse/lowering.py:379-380 | one memory slot per acquire that has one, and exactly those slots |
| `Lowering.BundleChannelIndices` | qiskit/pulse/lowering.py:361-383 | the loop computes the qubit, memory-slot and register-slot lists |
| `Lowering.ValidateMeasMap` | qiskit/pulse/lowering.py:330-359 | passes iff no acquire group measures part, but not all, of a measurement set, else `CompilerError` |
| `Lowering.Bundles` | qiskit/pulse/lowering.py:316-326 | one bundled acquire per group, in group order, stamped with the group's time and first acquire and holding the qubits, memory slots and register slots of all its acquires |
| `Lowering.BundlesFollowInstructions` | qiskit/pulse/lowering.py:310-328 | the output is the converted instructions, followed by one bundle per acquire key in first-seen order, stamped with its time and its group's first acquire, and holding the qubits, memory slots and register slots of that key's acquires |
| `Lowering.CollectInstructions` | qiskit/pulse/lowering.py:248-308 | the loop computes the items, the acquire map, the maximum memory slot and the library of their folds |
| `Lowering.BundleGroups` | qiskit/pulse/lowering.py:316-326 | the loop computes the bundles |
| `Lowering.AssembleInstructions` | qiskit/pulse/lowering.py:224-328 | `_assemble_instructions` as its specification, with the library updated by this schedule |
| `Lowering.AcquireGroupingAsWrittenMerges` | qiskit/pulse/lowering.py:301 | as written, two simultaneous acquires of different durations fall into one group; the intended key keeps them apart |
| `Lowering.AcquireGroupsByTimeAndDuration` | qiskit/pulse/lowering.py:296-302 | under the intended key, the group of `(t, d)` holds only acquires of duration `d`, and every acquire starting at `t` with duration `d` |
| `Lowering.Swept` | qiskit/pulse/lowering.py:202-212 | a single experiment with configs becomes one copy per config, in order; otherwise the list is unchanged |
| `Lowering.MaxHeaderSlotsIsMaximum` | qiskit/pulse/lowering.py:219 | the config `memory_slots` bounds every header's and is attained |
| `Lowering.ExperimentsShape` | qiskit/pulse/lowering.py:175-199 | one experiment per schedule, each built from that schedule's instructions |
| `Lowering.ScheduleExperiments` | qiskit/pulse/lowering.py:175-199 | experiment `i` has schedule `i`'s instructions, header memory slots `max_memory_slot + 1`, `ConfigFor(i)` and its name |
| `Lowering.InvalidFrequencyCount` | qiskit/pulse/lowering.py:156-161 | with frequencies supplied, lowering fails with the invalid-frequency `CompilerError` iff there are several schedules and the count is not 0, 1 or the number of schedules |
| `Lowering.ConfigPerSchedule` | qiskit/pulse/lowering.py:193-197 | without a sweep: no config, the single config for all, or config `i` for experiment `i` |
| `Lowering.SingleScheduleSweep` | qiskit/pulse/lowering.py:202-212 | one schedule with `n` configs gives `n` experiments sharing header and instructions, config `i` on the `i`-th |
| `Lowering.MemorySlotsAreMaximum` | qiskit/pulse/lowering.py:184-220 | every header's memory slots are at least 1 and at most the config's, which one header attains |
| `Lowering.EmptyProgramFails` | qiskit/pulse/lowering.py:219 | lowering no schedules fails with `max([])`'s `ValueError` |
| `Lowering.AssembleExperiment` | qiskit/pulse/lowering.py:176-199 | one schedule's experiment, or its error, and the library updated |
| `Lowering.AssembleSchedules` | qiskit/pulse/lowering.py:173-199 | the loop computes the experiment fold, stopping at the first error |
| `Lowering.SweepExperiments` | qiskit/pulse/lowering.py:202-212 | the loop computes the sweep |
| `Lowering.MaxMemorySlots` | qiskit/pulse/lowering.py:219 | `ValueError` for no experiments, else the maximum header memory slots |
| `Lowering.Lower` | qiskit/pulse/lowering.py:95-130 | a missing `qubit_lo_freq`, then a missing `meas_lo_freq`, then a bad frequency count, each a `CompilerError` before any assembly; otherwise the experiments, the sweep, the library and the maximum |
| `VariableTables.Written` | qiskit/circuit/variabletable.py:41-49 | the writes through a binding list keep each parameter list's length |
| `VariableTables.WrittenMeaning` | qiskit/circuit/variabletable.py:41-49 | after the writes, slot `i` of an instruction holds the value iff some binding names that instruction and slot (a negative index counts from the end); every other slot is unchanged |
| `VariableTables.FirstOutOfRange` | qiskit/circuit/variabletable.py:42-48 | the first binding whose index is outside its instruction's parameters, every earlier one being inside |
| `VariableTables.DictOfItems` | qiskit/circuit/variabletable.py:18-23 | `dict(items)`: distinct keys in first-seen order, exactly the keys given, each mapped to its last value |
| `VariableTables.VariableTable.constructor` | qiskit/circuit/variabletable.py:18-23 | the table is `dict(items)` |
| `VariableTables.VariableTable.GetItem` | qiskit/circuit/variabletable.py:25-26 | the key's bindings, or `KeyError` iff absent |
| `VariableTables.VariableTable.SetItem` | qiskit/circuit/variabletable.py:28-49 | a new key stores its binding list and goes last (a value that is not a binding list is a `TypeError` and changes nothing); an existing key keeps the table and writes the value, or a dictionary's last value, into every bound slot, up to an `IndexError` at the first out-of-range binding |
| `VariableTables.VariableTable.DelItem` | qiskit/circuit/variabletable.py:51-52 | removes exactly that key, or `KeyError` with nothing changed |
| `VariableTables.VariableTable.Len` | qiskit/circuit/variabletable.py:57-58 | the number of keys |
| `VariableTables.VariableTable.Iter` | qiskit/circuit/variabletable.py:54-55 | exactly the keys, each once, in insertion order |
| `VariableTables.Remove` | qiskit/circuit/variabletable.py:51-52 | the key list without the deleted key |
| `VariableTables.Rebind` | qiskit/circuit/variabletable.py:41-49 | the existing-key branch: an empty dictionary writes nothing |
| `VariableTables.WriteThrough` | qiskit/circuit/variabletable.py:41-49 | the binding loop writes up to the first out-of-range binding, then raises `IndexError` |
| `VariableTables.Assign` | qiskit/circuit/variabletable.py:43-49 | one binding: the dictionary's values in order, or the scalar, into `params[param_index]`, so the last value wins |

## Left out

- `Instruction.draw` (qiskit/pulse/instructions/instruction.py:237-273): visualisation.
- The instruction subclasses (Play, Delay, Acquire, ShiftPhase and the others) are not part of this model. They appear as smart constructors over the base initializer, with their operand layout.
- `Instructions.AppendTime`: `shift`, `insert`, `append` and the operators `+`, `__or__` and `<<` build a `Schedule`, a class that is not part of this model. The model records the name and the (start time, instruction) pairs each is built from, not the resulting schedule's own timing or conflict checks.
- `PulseSchedule.channel_list` is a plain getter. The builder's `Schedule` is an ordered record of what was appended, with its time placement abstract.
- The builder's `contextvars` ambient builder is an explicit handle. `transpile`, `schedule`, the `Schedule` class and the `transforms.*` alignments are abstract functions of `Env`. The model assumes only that the time order `inline` reads from a block is a permutation of the block's instructions.
- `Builder.Build`: a default alignment given as a context manager is not modelled; only the three names are.
- In the value model, the builder saves the parent block after the flush that `set_active_block` performs. Python saves a reference before that flush, so the flushed content reaches the parent through aliasing. Both give the same parent block, so the builder's blocks carry no object identity.
- `Builder.PulseBuilder.Exit`: `__exit__` returns `None`, and the caller sees the program through the object `__enter__` yielded. The program carries no object identity in the model, so `Exit` returns it instead.
- `Builder.PulseBuilder.CallGate` and `Builder.PulseBuilder.CallInner`: the argument checks of `QuantumCircuit.append` and `compose`, which raise `CircuitError` for qubits out of range, are not modelled. `QuantumCircuit` is not part of this model, and composing is unconditional.
- In `assemble_circuits` (qiskit/compiler/assembler.py:31-50 and 164-166), three things are not modelled: wrapping a single circuit into a list, the `qobj_id` defaulting to a random `uuid`, and the `run_config` and header plumbing into `QasmQobjConfig` and `QobjHeader`. The model takes a list of circuits, and its config holds only the two maxima.
- `time_to_samples`/`samples_to_time` (qiskit/pulse/builder.py:660-685): floating point.
- `frequency_offset` (qiskit/pulse/builder.py:1128-1181): floating point. It also calls `shift_frequency`, which raises `NotImplementedError` (qiskit/pulse/builder.py:1417).
- `barrier` (qiskit/pulse/builder.py:1595-1663): barrier instructions are not part of this model.
- The remaining one-line instruction wrappers (`play`, `delay`, `set_frequency`, `shift_phase`, `snapshot`) are each an `AppendInstructionIn` of the corresponding instruction.
- Parameter evaluation in `assemble_circuits` (`evalf`, `sympy.matrix2numpy`, qiskit/compiler/assembler.py:113-121): symbolic and complex floating point. An op's parameters are given already evaluated, and `params` carries them as they are. The single-matrix unwrapping at line 117 is not modelled.
- The instruction conversion, pulse library and `qobj` classes of `assemble_schedules` are not part of this model beyond the LO-configuration shapes.
- `ReplacedWithUserLos`: the Python code raises `IndexError` on an out-of-range channel index. The model returns it as an error instead of a partially updated copy.
- The SHA-256 hash (qiskit/pulse/lowering.py:273, 285) is an abstract function of the samples.
- Parametric-to-sample expansion (`get_sample_pulse`), the instruction and LO converters and their validation are abstract. The run config's LO converter is taken to yield the frequency configs unchanged.
- The deprecated `commands.*` branches (qiskit/pulse/lowering.py:254-259, 272-281) are left out: the `commands` module is not part of this model.
- `_assemble_config` (qiskit/pulse/lowering.py:385-433): Hz to GHz division and dictionary plumbing.
- `Lowering.ValidateMeasMap`: the error message is a constant, not the formatted sets.
- The converter is abstract, so a converted item records the time and the instruction it came from.
- `VariableTables.VariableTable.SetItem`:
  - the `params` setter of `Instruction` is not part of this model, so `instr.params = params` is a plain field write;
  - the `isinstance` assertions are enforced by the binding type, so `AssertionError` is not modelled;
  - a dictionary given for a new key is iterated by its keys, so an empty one stores no bindings and a non-empty one is a `TypeError`.
- `VariableTables.VariableTable.constructor`: the `**kwargs` form of `dict` is not modelled.
- Aliasing between different instructions' parameter lists is not modelled: each `CircuitInstruction` owns its `params` sequence.
- `PulseSchedule.PulseScheduleObj.Add`: Python's allocation of object identities is a parameter, the next identity, required to be above every identity already in the list.
- `qiskit/pulse/context.py`, `optimize_swap_before_measure.py`, `interfaces.py`, `propertyset.py`, `_persistent_value.py` and the package `__init__` files are not modelled.

## Findings

| source | as written | input that shows it | evidently intended | confidence | as-written member | corrected member |
|---|---|---|---|---|---|---|
| qiskit/pulse/schedule/pulse_schedule.py:127 | `end_time` and `duration` (line 130) `raise` the computed integer | any schedule with one pulse: `end_time()` raises `TypeError` | `return` the maximum leaf end, and the difference of end and start | high (not executed) | `PulseSchedule.EndTimeAsWrittenNeverReturns` | `PulseSchedule.EndTime` |
| qiskit/pulse/instructions/instruction.py:282-285 | `__hash__` includes the name, while `__eq__` ignores it | two `Delay(10, d0)` with names "a" and "b" are equal but hash differently | equal instructions hash equally (no name in the hash) | high (not executed) | `Instructions.HashKeyAsWrittenDisagreesWithEqual` | `Instructions.HashKeyAgreesWithEqual` |
| qiskit/compiler/assembler.py:258 | the missing-defaults `QiskitError` is constructed but not raised | one user LO dictionary `{DriveChannel(0): 5.0}` with no default LO frequencies gives no config and no error | raise `QiskitError` when the defaults are missing | high (not executed) | `Assembler.MissingDefaultsIgnoredAsWritten` | `Assembler.ExperimentConfigs` |
| qiskit/compiler/assembler.py:276 | a sweep's header is read from `schedules[0]` (the input object) rather than the assembled `qobj_schedules[0]` | one schedule with two LO configs: the experiments do not carry the assembled header | `qobj_schedules[0]['header']`, as in the n:n branch | medium (not executed) | `Assembler.SweepHeaderAsWrittenDiffers` | `Assembler.Sweep` |
| qiskit/pulse/lowering.py:301 | acquires are keyed by `(time, instruction.command)`, and `command` is `None` for the new instruction classes (qiskit/pulse/instructions/instruction.py:88-96) | two acquires at time 0 with durations 10 and 20 fall into one bundle | key by start time and duration, as the docstring at line 338-339 says | high (not executed) | `Lowering.AcquireGroupingAsWrittenMerges` | `Lowering.AcquireGroupsByTimeAndDuration` |
