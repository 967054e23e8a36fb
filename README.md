# megra.rs core, modelled in Dafny

Mégra is a live-coding language for music.
It is built on variable-order Markov chains, with a Lisp-like surface syntax.
A performer writes *constructors* such as `cyc`, `loop`, `nuc`, `fact` and `life`.
These build *generators*: a Markov sequence generator plus a chain of *processors*.
On every step, a generator emits *events* (sounds with parameters) and a *transition* (a duration event).
The performer edits the code in an editor that knows about s-expressions.

This project models that core in Dafny and proves properties of it.

- **Parameters** (`parameter.dfy`). A parameter is a static value plus a modifier. It is evaluated to `f32`/`usize` with Rust's saturating casts. Shaking moves a value by at most the clamped factor times its magnitude, and shakes its modifier by the same factor. The dynamic-parameter evaluator resolves brackets, matrices and envelopes; the stereo/unipolar translation is invertible.
- **Events and globals** (`events.dfy`, `globals.dfy`). Events are named parameter maps. The session's global parameters can be set and read back.
- **Generator pipeline** (`generator.dfy`, `generator_processor.dfy`, `every_processor.dfy`). A generator is a class that owns its processors. The events and transition of a step are computed by running the processor chain. Each method is proved equal to a specification over snapshots of the processors' fields. `every` fires its attached event modifiers every *n* steps.
- **Constructors** (`cycle.dfy`, `loop.dfy`, `facts.dfy`, `lifemodel.dfy`). The model builds the rules of a cycle, a loop or a fact generator from the parsed items. It proves the shape of the chain that results: which symbols, which rules and which durations.
- **Token evaluators** (`sound.dfy`, `parameter_event.dfy`, `builtin_sound_event.dfy`, `sync_context.dfy`). These turn evaluated s-expression items into sound events, parameter events and sync contexts, with positional arguments, keyword arguments and defaults.
- **Commands** (`commands_samples.dfy`, `commands_export.dfy`, `commands_once.dfy`). The model covers sample-set registration from file names, de-interleaving of stereo buffers, naming of exported parts, and one-shot evaluation.
- **Editor** (`livecode_text_edit.dfy`, `livecode_sexp.dfy`, `custom_editbox.dfy`). The model covers text-edit operations (insertion, deletion, word and line boundaries), bracket wrapping and backspace pairing, the s-expression formatter and top-level expression finder, and the edit box's key, undo, paste and touch handling.

Panics of the Rust code are modelled as an explicit `Panic` result (`wrappers.dfy`).
Integers of fixed width are modelled with explicit casts or explicit bounds.
Strings are sequences of characters (`strings.dfy`).

## Model

| member | source | states |
|---|---|---|
| Wrappers.AsUsize | src/parameter.rs:310-317 | Rust's saturating `f32 as usize` cast: at most usize::MAX, zero below 1, and the integer part of any in-range value |
| Wrappers.AsI32 | src/parser/eval/session/sync_context.rs:71 | Rust's saturating `f32 as i32` cast: within the i32 range, truncation toward zero for in-range values |
| Strings.Split | src/commands.rs:157 | every piece of `str::split` over a separator set is free of separators and there is at least one piece |
| Strings.JoinSplit | src/parser/eval/events/parameters.rs:21 | joining the pieces of a split on one separator gives back the original text |
| Strings.SplitJoin | src/parser/eval/events/parameters.rs:21 | splitting a join of separator-free pieces gives back the pieces |
| Strings.SplitCount | src/parser/eval/events/parameters.rs:21 | a split yields one piece more than there are separators |
| Strings.LowerChar | src/commands.rs:102 | ASCII lower-casing shifts exactly the capitals by 32 and leaves no capital |
| Strings.Lower | src/commands.rs:102 | lower-casing keeps the length and lower-cases each character in place |
| Events.Apply | src/generator.rs:20-34 | applying an override to a static event keeps its name, parameters and tags and records the override after the earlier ones |
| Globals.GlobalParameters.DefaultDurationOrInsert | src/parser/eval/constructors/loop.rs:41-49 | `entry(DefaultDuration).or_insert(200)`: an existing numeric default is returned and nothing changes; otherwise 200 is stored and returned |
| Globals.GlobalParameters.SetGlobalTmod | src/commands.rs:438-443 | the global time modifier becomes the given dynamic value, every other global unchanged |
| Globals.GlobalParameters.SetGlobalLatency | src/commands.rs:445-450 | the global latency becomes the given dynamic value, every other global unchanged |
| Globals.GlobalParameters.SetDefaultDuration | src/commands.rs:452-457 | the default duration becomes the given number, every other global unchanged |
| Globals.GlobalParameters.SetGlobalLifemodelResources | src/commands.rs:459-464 | the lifemodel resource pool becomes the given number, every other global unchanged |
| Parameter.WithValue | src/parameter.rs:293-299 | a parameter built from a number has that number as value and static value and no modifier |
| Parameter.EvaluateNumerical | src/parameter.rs:319-326 | without a modifier the value is returned unchanged; with one the modifier's value is returned and stored as the static value, the base value kept |
| Parameter.EvaluateValF32 | src/parameter.rs:301-308 | evaluation wrapped as a scalar f32 synth value, with the same state change |
| Parameter.EvaluateValUsize | src/parameter.rs:310-317 | evaluation cast to usize (saturating, at most usize::MAX), with the same state change |
| Parameter.ShakeOffsetBound | src/parameter.rs:328-337 | a shake moves the value by at most the clamped factor times its magnitude |
| Parameter.Shake | src/parameter.rs:328-337 | shaking moves the value by at most factor (clamped to 0..1) times its magnitude, keeps the static value, and shakes the modifier (if any) by the clamped factor |
| Parameter.ShakeThousandByHalf | src/parameter.rs:347-356 | shaking 1000 by 0.5 always lands within 500..1500, and stays at 1000 only for the neutral draw |
| Parameter.MaxLen | src/parameter.rs:136-145 | the column count is the length of the longest row (no row is longer, and some row has it, unless all are empty) |
| Parameter.EnvelopeSegments | src/parameter.rs:239-266 | an envelope over n levels has n-1 segments |
| Parameter.BuildSegments | src/parameter.rs:239-266 | the segment loop builds exactly the envelope specification (missing times and types fall back to the last one or the default) |
| Parameter.EvaluateAll | src/parameter.rs:129-135 | evaluating a vector evaluates every entry in order and leaves every entry evaluated |
| Parameter.PadRows | src/parameter.rs:152-156 | padding makes every row exactly `cols` long, keeps its prefix and fills the rest with zeros |
| Parameter.EvaluateMatrix | src/parameter.rs:136-158 | a matrix resolves to rows x longest-row values, each row's prefix its evaluated entries and the rest zero |
| Parameter.ResolveParameter | src/parameter.rs:120-274 | each parameter kind resolves to its synth value: the buffer number as usize, vectors and matrices evaluated entrywise, oscillators and ramps with evaluated arguments, an envelope as 0, its single level, or its segments; every parameter that was evaluated is left with its snapshot refreshed, the others unchanged, and a modified scalar's snapshot is the value resolved |
| Parameter.TranslateStereo | src/parameter.rs:28-118 | stereo translation keeps each value's kind (LFSquare becomes a triangle with the pulse width as phase, all ramps linear), frequency, timing and operation |
| Parameter.TranslateStereoUnipolar | src/parameter.rs:28-118 | a bipolar scalar, oscillator, ramp or envelope becomes unipolar (within 0..1) after translation |
| Parameter.TranslateStereoRoundTrip | src/parameter.rs:28-118 | translation is undone by the inverse affine map on kind-preserving values, so no information is lost |
| GeneratorProcessor.StateOf | src/generator_processor.rs:58-63 | a processor hands over its state only if it is stateful; the every processor and stateless ones hand over no state |
| GeneratorProcessor.WithState | src/generator_processor.rs:52-56 | setting a state changes only a stateful processor's state and leaves every other processor as it was |
| GeneratorProcessor.StateRoundTrip | src/generator_processor.rs:52-63 | a state set on a stateful processor is the state it then hands over; others keep handing over none |
| GeneratorProcessor.SetState | src/generator_processor.rs:54-56 | `set_state` on any processor in the chain moves it to the specified new snapshot |
| GeneratorProcessor.ProcessEvents | src/generator_processor.rs:26-32 | dispatching `process_events` rewrites the events and the processor exactly as its kind's hook specifies |
| GeneratorProcessor.ProcessGenerator | src/generator_processor.rs:35-41 | dispatching `process_generator` yields the generator-modifier calls and the new processor state its kind's hook specifies |
| GeneratorProcessor.ProcessTransition | src/generator_processor.rs:44-50 | dispatching `process_transition` rewrites the transition as its kind's hook specifies and changes no processor |
| GeneratorProcessor.CloneBox | src/generator_processor.rs:85-87 | a cloned processor is a new object of the same kind with the same fields |
| GeneratorProcessor.DefaultHooksChangeNothing | src/generator_processor.rs:26-63 | the default hooks pass events and transitions through, call no generator modifier, change nothing, and a stateless processor has no state |
| EveryProcessor.Period | src/generator_processor/every_processor.rs:34 | the step period `(x as usize) % 101` is below 101 |
| EveryProcessor.ApplyAll | src/generator_processor/every_processor.rs:40-50 | applying overrides to the event list keeps its length |
| EveryProcessor.ApplyAllTwice | src/generator_processor/every_processor.rs:37-53 | applying one batch of overrides and then another equals applying them together in order |
| EveryProcessor.ApplyAllNone | src/generator_processor/every_processor.rs:37-53 | applying no override leaves the events unchanged |
| EveryProcessor.GroupOverrides | src/generator_processor/every_processor.rs:37-53 | a filter group contributes one override per event |
| EveryProcessor.StaticGroups | src/generator_processor/every_processor.rs:36-54 | one remembered static group per filter group |
| EveryProcessor.ApplyToSounds | src/generator_processor/every_processor.rs:40-50 | one static event is applied to every sound event with the group's filter and mode; control events are untouched |
| EveryProcessor.ApplyGroup | src/generator_processor/every_processor.rs:38-53 | a filter group's events are applied to the incoming events one after the other |
| EveryProcessor.ApplyGroups | src/generator_processor/every_processor.rs:36-54 | all filter groups are applied in order, and the static events of each group are remembered |
| EveryProcessor.FiresAsWritten | src/generator_processor/every_processor.rs:35-36 | `step_count % cur_step` panics exactly for a zero period and otherwise fires on multiples of the period |
| EveryProcessor.ZeroPeriodPanics | src/generator_processor/every_processor.rs:34-36 | a step of 0 or 101 gives period 0, and the as-written test panics on it |
| EveryProcessor.FiresCorrected | src/generator_processor/every_processor.rs:35-36 | the corrected test never fires for period 0, and agrees with the as-written test on every non-zero period |
| EveryProcessor.FiredListPeriods | src/generator_processor/every_processor.rs:55 | every remembered period is non-zero, so the transition step can divide by it |
| EveryProcessor.FireEntry | src/generator_processor/every_processor.rs:32-57 | one entry evaluates its step parameter, and if the step count is a multiple of its period applies its groups and records them |
| EveryProcessor.GroupOverridesStatic | src/generator_processor/every_processor.rs:77-80 | a remembered group applies each of its events, in order, with the group's filter in mode `true` |
| EveryProcessor.ApplyStaticGroup | src/generator_processor/every_processor.rs:77-81 | the transition receives the group's overrides after its earlier ones |
| EveryProcessor.ApplyStaticGroups | src/generator_processor/every_processor.rs:75-83 | the transition receives every remembered group's overrides in order |
| EveryProcessor.EveryProcessor.constructor | src/generator_processor/every_processor.rs:19-25 | a new every processor starts at step 1 with nothing to apply and nothing remembered |
| EveryProcessor.EveryProcessor.Clone | src/generator_processor/every_processor.rs:11 | a clone is a new processor with the same step count, entries and remembered groups |
| EveryProcessor.EveryProcessor.ProcessEvents | src/generator_processor/every_processor.rs:30-58 | every entry's step is evaluated, the remembered groups are replaced by those of the entries due at this step, and their overrides are applied to the events in order; an entry is due by the intended test, so a period of 0 never fires (see Findings) |
| EveryProcessor.EveryProcessor.ProcessGenerator | src/generator_processor/every_processor.rs:60-72 | the modifier calls of the entries due at the current step (by the intended test, see Findings) are issued in order, then the step count rises by one |
| EveryProcessor.EveryProcessor.ProcessTransition | src/generator_processor/every_processor.rs:74-84 | the transition receives the overrides of each remembered group whose period divides the step count (by the intended test, see Findings) |
| EveryProcessor.EveryFourthStep | src/generator_processor/every_processor.rs:34-35 | with step 4, the processor fires at steps 4, 8, 12, 16 and 20 and at no other step up to 20 |
| Generator.ApplyTo | src/generator.rs:20-34 | a time modifier panics when the transition has no duration, changes nothing when the duration is not a scalar, and otherwise replaces only the duration by the operated value, a division by zero included |
| Generator.TimeModInverse | src/generator.rs:21-28 | subtracting undoes adding, dividing undoes multiplying by a non-zero value, and dividing by zero gives the `f32` division-by-zero value |
| Generator.ReplaceForgets | src/generator.rs:21-32 | a replacing time modifier gives the same result whatever modifier was applied before it |
| Generator.TagEvents | src/generator.rs:67-71 | every sound event gets the generator's id tags added to its own; control events are untouched |
| Generator.ChainEventsShape | src/generator.rs:80-83 | the processor chain keeps the number of events, their kind, their tags, and leaves control events alone |
| Generator.EmittedTags | src/generator.rs:62-94 | every emitted sound event carries the generator's id tags together with its own |
| Generator.DefaultChainPasses | src/generator.rs:80-83 | a chain of processors with only the default hooks passes events and transitions through and calls no modifier |
| Generator.StepProcessor | src/generator.rs:80-83 | one processor's `process_events` then `process_generator` advances the chain specification by one processor |
| Generator.TransferChain | src/generator.rs:51-55 | each processor takes the state of the processor at the same index of the other generator, if there is one, and the rest are unchanged |
| Generator.RunChain | src/generator.rs:80-83 | the processors' loop produces exactly the chain specification's events and modifier calls, and leaves every processor in its specified state |
| Generator.Generator.constructor | src/generator.rs:38-44 | a generator holds the given tags, root, processors, time modifiers and keep-root flag |
| Generator.Generator.ReachedEndState | src/generator.rs:58-60 | a generator has reached its end exactly when its root chain has |
| Generator.Generator.TransferState | src/generator.rs:47-56 | the root takes the other root's state and the processors take the other's processor states index by index |
| Generator.Generator.CurrentEvents | src/generator.rs:62-94 | the root's events, tagged with the generator's id tags, pass through every processor in order; their modifier calls are recorded; every processor advances |
| Generator.Generator.CurrentTransition | src/generator.rs:96-106 | the root's transition passes through every processor, then the last time modifier, if any, is popped and applied |
| Cycle.CharFromU32 | src/parser/eval/constructors/loop.rs:98 | `char::from_u32` succeeds exactly below the surrogates or between them and the last code point, and then gives that code point |
| Cycle.Sym | src/parser/eval/constructors/loop.rs:87-114 | the k-th generated symbol is the character k places after '1' |
| Cycle.TransitionEvent | src/parser/eval/constructors/loop.rs:100-104 | a transition event is named "transition" and carries exactly the given duration |
| Cycle.BuildCycle | src/parser/eval/constructors/loop.rs:85-135 | building the cycle panics exactly for no events (`len - 1` below zero) or more symbols than fit before the surrogates, and otherwise gives the cycle specification |
| Cycle.EventMapShape | src/parser/eval/constructors/loop.rs:94-95 | the event mapping's keys are exactly the first m symbols, each mapped to its own event list |
| Cycle.StepDurationsShape | src/parser/eval/constructors/loop.rs:97-112 | the step durations map exactly the pairs (k-th symbol, next symbol) to the k-th duration |
| Cycle.CycleRules | src/parser/eval/constructors/loop.rs:94-133 | one probability-1 rule per event list, from each symbol to the next, the last one closing back to '1' |
| Cycle.CycleDurations | src/parser/eval/constructors/loop.rs:97-135 | every rule's edge carries a transition event: the k-th duration, and the closing duration on the closing edge |
| Cycle.CycleDurationsOnly | src/parser/eval/constructors/loop.rs:97-135 | the duration mapping has no edge that is not a rule's |
| Cycle.CycleEvents | src/parser/eval/constructors/loop.rs:94-95 | the event mapping's keys are exactly the cycle's symbols, each with its own event list |
| Cycle.CycleDeterministic | src/parser/eval/constructors/loop.rs:106-133 | no two rules leave the same symbol, so the cycle is deterministic |
| Loop.LoopName | src/parser/eval/constructors/loop.rs:29-34 | the loop's name is the symbol after the function name, or empty when there is none |
| Loop.CollectEvents | src/parser/eval/constructors/loop.rs:52-80 | the token loop collects exactly the collection specification |
| Loop.LastDuration | src/parser/eval/constructors/loop.rs:121-125 | the closing duration is the last collected duration, or the default when none was collected |
| Loop.FreshRoot | src/parser/eval/constructors/loop.rs:147-159 | the root automaton holds the name, the cycle's rules and mappings, is marked modified with no history, and has the default duration cast to an integer |
| Loop.ALoop | src/parser/eval/constructors/loop.rs:17-164 | the default duration is read or inserted as 200; the constructor panics exactly when the cycle cannot be built, and otherwise returns a new generator tagged with the name, with the built root, no processors, no time modifiers and the keep flag |
| Loop.CollectFromBounds | src/parser/eval/constructors/loop.rs:52-80 | there are never fewer durations than event lists, and at most one more |
| Loop.CollectBounds | src/parser/eval/constructors/loop.rs:52-80 | after collecting, there are as many durations as event lists, or one more |
| Loop.CollectFromSnoc | src/parser/eval/constructors/loop.rs:52-80 | collecting one more token extends the collection by that token's step (a keep keyword adds nothing) |
| Loop.CollectSnoc | src/parser/eval/constructors/loop.rs:53-78 | a sound or control event adds a list with the default duration; a number replaces the last duration, or adds one to an empty list; other tokens are ignored |
| Loop.DefaultDurationsFrom | src/parser/eval/constructors/loop.rs:52-80 | without numbers every event list gets the default duration |
| Loop.DefaultDurations | src/parser/eval/constructors/loop.rs:52-80 | a loop written without numbers has one default duration per event list |
| Loop.KeepBuildsNothing | src/parser/eval/constructors/loop.rs:71-77 | ending with `:keep true` builds no cycle, whatever events were given |
| Loop.KeepLast | src/parser/eval/constructors/loop.rs:71-77 | a trailing `:keep true` sets the keep flag |
| Facts.MulEvent | src/parser/eval/constructors/facts.rs:74-83 | each number becomes a multiplying event named "<param>-mul" that sets only the label the parameter name maps to, to that number |
| Facts.CollectFacts | src/parser/eval/constructors/facts.rs:59-88 | the token loop collects exactly the collection specification, panicking when `:rnd` is the last token |
| Facts.MakeFacts | src/parser/eval/constructors/facts.rs:18-183 | without a name or parameter symbol nothing is returned and the globals are untouched; otherwise the default duration is read or inserted as 200, no numbers give nothing, and the result is a new generator tagged with the name whose root is the cycle of multiplying events |
| Facts.FactsFromAllMul | src/parser/eval/constructors/facts.rs:59-88 | every collected event list is one multiplying event for the parameter |
| Facts.FactsEventsAreMul | src/parser/eval/constructors/facts.rs:74-85 | every event the facts constructor collects multiplies the named parameter |
| Facts.MulEvents | src/parser/eval/constructors/facts.rs:74-85 | one event list per number |
| Facts.FactsFromPlain | src/parser/eval/constructors/facts.rs:59-88 | without keywords the collection gains one multiplying event per number, in order |
| Facts.FloatsCons | src/parser/eval/constructors/facts.rs:74-86 | the numbers of a token list are those of its head followed by those of its rest |
| Facts.FactsWithoutKeywords | src/parser/eval/constructors/facts.rs:54-88 | without keywords: no keep, no randomisation, and exactly one multiplying event per number, in order |
| Facts.FactsDurationsDefault | src/parser/eval/constructors/facts.rs:113-147 | every edge of the facts cycle carries the default duration |
| Sound.SymbolicParamValue | src/parser/eval/events/sound.rs:12-51 | a symbol resolves exactly when it is one of the filter or envelope-segment names, and then to a filter type or segment type |
| Sound.RunEnd | src/parser/eval/events/sound.rs:53-105 | the run of collectable tokens starting at a position, ending at the first token that is not collectable |
| Sound.Params | src/parser/eval/events/sound.rs:59-72 | one parameter per collected token |
| Sound.CollectParam | src/parser/eval/events/sound.rs:53-105 | collecting a parameter value never moves backwards and stays within the tokens |
| Sound.CollectParamValue | src/parser/eval/events/sound.rs:53-105 | the token loop collects exactly the specified value: a single number or dynamic value as a scalar, several as a vector, a symbolic name as its constant, and stops at the first other token |
| Sound.Peek | src/parser/eval/events/sound.rs:414 | peeking yields a token exactly when one is left |
| Sound.Bufnum | src/parser/eval/events/sound.rs:130-154 | a number n becomes buffer n-1 (0 below 1, never negative) and is consumed; anything other than a number or dynamic value gives buffer 0 and consumes nothing |
| Sound.WithDefaults | src/parser/eval/events/sound.rs:156-266 | inserting defaults sets every default label to its default, keeps every other parameter, and changes nothing else about the event |
| Sound.SymbolRunEnd | src/parser/eval/events/sound.rs:418-421 | the run of symbols starting at a position, ending at the first token that is not a symbol |
| Sound.SymbolSet | src/parser/eval/events/sound.rs:416-421 | the keyword set holds exactly the run's symbols |
| Sound.SymbolSetSnoc | src/parser/eval/events/sound.rs:418-421 | taking one more symbol adds exactly that symbol to the set |
| Sound.CollectSymbols | src/parser/eval/events/sound.rs:416-421 | the symbol loop consumes exactly the run of symbols and collects their set |
| Sound.SampleEvent | src/parser/eval/events/sound.rs:431-448 | a sample event is a sampler tagged with the sample name, the keywords and the sample's own keys |
| Sound.SampleHead | src/parser/eval/events/sound.rs:410-453 | the corrected sample head panics exactly when the as-written one does and, after a position number, consumes that number |
| Sound.KeywordStep | src/parser/eval/events/sound.rs:456-483 | each keyword consumes itself and then at least nothing more |
| Sound.ApplyKeyword | src/parser/eval/events/sound.rs:457-482 | one keyword adds the specified parameters and tags to the event |
| Sound.CollectKeywordParams | src/parser/eval/events/sound.rs:456-483 | the keyword loop builds exactly the specified event, stopping at the first token that is not a keyword |
| Sound.EvalHead | src/parser/eval/events/sound.rs:288-453 | the name dispatch builds exactly the specified head event for each synth, silence, sampler and sample name, a sample position being consumed as intended (see Findings) |
| Sound.EvalSound | src/parser/eval/events/sound.rs:268-486 | the sound constructor gives exactly the specification's result: the head event with its keyword parameters, nothing, or a panic, a sample position being consumed as intended (see Findings) |
| Sound.KeywordsOverride | src/parser/eval/events/sound.rs:456-483 | the keyword parameters override the head's parameters and the keyword tags are added to its tags |
| Sound.KeywordsOverHead | src/parser/eval/events/sound.rs:268-486 | every label a keyword names, a default one included, takes the keyword's value; every other label of the head, defaults included, keeps its value; the keyword tags are added |
| Sound.SoundNone | src/parser/eval/events/sound.rs:278-283 | nothing is built exactly when there is no function name or the name is neither known nor a non-empty sample set; a panic only arises for a sample set |
| Sound.Silence | src/parser/eval/events/sound.rs:381-382 | `silence` and `~` both give a plain silence event |
| Sound.RissetExample | src/parser/eval/events/sound.rs:495-523 | when `lvl` names the envelope level, `(risset 4000 :lvl 1.0)` is a risset event at 4000 Hz whose level is 1.0, replacing the default 0.5 |
| Sound.RissetHead | src/parser/eval/events/sound.rs:348-354 | the risset head takes 4000 as its pitch and the default level 0.5 |
| Sound.RissetKeywords | src/parser/eval/events/sound.rs:456-483 | `:lvl 1.0` sets exactly the label `lvl` names to 1.0 on the risset head |
| Sound.SamplePositionKeywords | src/parser/eval/events/sound.rs:424-426 | the sample head of `(bd 2 :lvl 0.9)` has the default level 0.5, and the keyword loop from after the position sets the label `lvl` names to 0.9 |
| Sound.SamplePositionHead | src/parser/eval/events/sound.rs:410-453 | with the position consumed, the head of `(bd 2 ...)` is the sample at position 2 and the keywords start at item 2 |
| Sound.SamplePositionDropsKeywords | src/parser/eval/events/sound.rs:424-426 | when `lvl` names the envelope level: as written, `(bd 2 :lvl 0.9)` keeps the default level 0.5; the keyword loop stops at the unconsumed 2 |
| Sound.SamplePositionKeepsKeywords | src/parser/eval/events/sound.rs:410-486 | when `lvl` names the envelope level, `(bd 2 :lvl 0.9)` gets level 0.9 with the corrected head |
| ParameterEvent.SuffixOp | src/parser/eval/events/parameters.rs:24-31 | the suffixes add, sub, mul and div select exactly their operations; any other suffix replaces |
| ParameterEvent.OpOf | src/parser/eval/events/parameters.rs:24-34 | a name without a dash replaces; a name with one dash takes its suffix's operation |
| ParameterEvent.LabelOf | src/parser/eval/events/parameters.rs:36-66 | a known short name selects its synth label; any other name falls back to the pitch frequency |
| ParameterEvent.ParameterOf | src/parser/eval/events/parameters.rs:10-103 | a built parameter event is a sound event with no tags and exactly one parameter |
| ParameterEvent.ParameterNone | src/parser/eval/events/parameters.rs:20-22 | nothing is built exactly when there is no function name, no argument, or more than one dash in the name |
| ParameterEvent.ParameterPlain | src/parser/eval/events/parameters.rs:68-93 | `(lvl x)` builds a replacing event named lvl that sets only its label to the argument's value |
| ParameterEvent.ParameterSuffixed | src/parser/eval/events/parameters.rs:21-93 | `(lvl-add x)` builds an event named by the part before the dash, with the suffix's operation and the argument's value |
| ParameterEvent.FrequencyNames | src/parser/eval/events/parameters.rs:78-82 | note names are read as frequencies exactly for freq, pitch, lpf, hpf, pff and unknown names |
| ParameterEvent.ArgumentValues | src/parser/eval/events/parameters.rs:72-90 | a number, a dynamic parameter and a modulator are taken as they are; a note name is its frequency on frequency labels and 0.5 elsewhere; anything else is 0.5 |
| BuiltinSoundEvent.Handle | src/parser/handlers/builtin_sound_event.rs:7-30 | the handler panics exactly when the first argument is missing or not a number, and otherwise builds the specified event |
| BuiltinSoundEvent.BuiltinShape | src/parser/handlers/builtin_sound_event.rs:11-27 | the event is named sine, saw or sqr with the given operation, has no tags, and sets pitch, level, attack, sustain, release and position plus the keyword labels |
| BuiltinSoundEvent.KeywordsWin | src/parser/handlers/builtin_sound_event.rs:18-27 | a keyword parameter overrides the default or the first-argument pitch; otherwise the default or the pitch stays |
| BuiltinSoundEvent.PlainDefaults | src/parser/handlers/builtin_sound_event.rs:18-25 | with only a frequency the event holds that pitch and the defaults 0.3, 0.005, 0.1, 0.01 and 0 |
| SyncContextEval.SyncStep | src/parser/eval/session/sync_context.rs:56-123 | each item moves forward; the step panics exactly when `:sync` or `:shift` is the last item |
| SyncContextEval.SyncContextOf | src/parser/eval/session/sync_context.rs:10-136 | the context has the given name and active flag; an inactive context is empty |
| SyncContextEval.TagAll | src/parser/eval/session/sync_context.rs:114-120 | every generator of a list gets the context's name added to its tags, and no other generator changes |
| SyncContextEval.InAllGens | src/parser/eval/session/sync_context.rs:108-120 | every generator an item carries belongs to the generators of the whole tail |
| SyncContextEval.SyncItem | src/parser/eval/session/sync_context.rs:57-123 | one item gives the specified step, keeps the generators collected so far, and tags exactly the generators it adds |
| SyncContextEval.EvalSyncContext | src/parser/eval/session/sync_context.rs:10-136 | the constructor gives the specified context, and exactly the generators it collects get the context's name as a tag |
| SyncContextEval.SoloRun | src/parser/eval/session/sync_context.rs:85-88 | after `:solo` a run of symbols is added to the solo tags |
| SyncContextEval.BlockRun | src/parser/eval/session/sync_context.rs:85-90 | after `:block` a run of symbols is added to the block tags |
| SyncContextEval.SoloKeyword | src/parser/eval/session/sync_context.rs:74-88 | `:solo` stops collecting block tags and collects the following symbols as solo tags |
| SyncContextEval.BlockKeyword | src/parser/eval/session/sync_context.rs:78-90 | `:block` stops collecting solo tags and collects the following symbols as block tags |
| SyncContextEval.PanicOnlyAtEnd | src/parser/eval/session/sync_context.rs:63-70 | the constructor can panic only when the tail ends with `:sync` or `:shift` |
| SyncContextEval.OneGenerator | src/parser/eval/session/sync_context.rs:145-180 | an active context with one generator holds that generator and no parts, sync, shift or tags |
| Lifemodel.ValuedBool | src/parser/eval/generator_processor/lifemodel.rs:60-104 | a boolean sets apoptosis, autophagia or global contribution; for other keywords nothing changes |
| Lifemodel.ValuedFloat | src/parser/eval/generator_processor/lifemodel.rs:75-119 | a number sets the keyword's numeric setting (the solidify length cast to usize); for other keywords nothing changes |
| Lifemodel.Collecting | src/parser/eval/generator_processor/lifemodel.rs:31-50 | collecting only ever extends the durations and the kept labels |
| Lifemodel.LifemodelStep | src/parser/eval/generator_processor/lifemodel.rs:30-123 | each item moves forward and only extends the durations and kept labels |
| Lifemodel.Positional | src/parser/eval/generator_processor/lifemodel.rs:14-25 | the positional numbers set growth cycle, lifespan and variance and touch no collection |
| Lifemodel.LifemodelProcessor.constructor | src/parser/eval/generator_processor/lifemodel.rs:12 | a processor starts with the given settings |
| Lifemodel.LifemodelProcessor.SetBool | src/parser/eval/generator_processor/lifemodel.rs:60-104 | assigning a boolean keyword changes the settings as specified |
| Lifemodel.LifemodelProcessor.SetFloat | src/parser/eval/generator_processor/lifemodel.rs:75-119 | assigning a numeric keyword changes the settings as specified |
| Lifemodel.LifemodelProcessor.SetValued | src/parser/eval/generator_processor/lifemodel.rs:60-119 | a keyword's argument is stored only when it has the expected kind |
| Lifemodel.LifemodelProcessor.SetPositional | src/parser/eval/generator_processor/lifemodel.rs:14-25 | the positional numbers are stored as specified |
| Lifemodel.LifemodelProcessor.Collect | src/parser/eval/generator_processor/lifemodel.rs:31-50 | one item extends the collections and updates the flags as specified |
| Lifemodel.LifemodelItem | src/parser/eval/generator_processor/lifemodel.rs:30-123 | one loop iteration gives exactly the specified step |
| Lifemodel.CollectLifemodel | src/parser/eval/generator_processor/lifemodel.rs:8-126 | the constructor returns a new processor whose settings are those the tail specifies |
| Lifemodel.DurationsIn | src/parser/eval/generator_processor/lifemodel.rs:33-34 | one duration per item of the run |
| Lifemodel.DurationsRun | src/parser/eval/generator_processor/lifemodel.rs:31-39 | after `:durs` a run of numbers and parameters is appended to the durations in order |
| Lifemodel.KeepsRun | src/parser/eval/generator_processor/lifemodel.rs:41-50 | after `:keep` a run of symbols is added to the kept labels |
| Lifemodel.ValuedTypeChecked | src/parser/eval/generator_processor/lifemodel.rs:60-119 | a keyword argument never touches the collections, and one of the wrong kind changes nothing |
| Lifemodel.CollectionsGrow | src/parser/eval/generator_processor/lifemodel.rs:30-123 | the durations and the kept labels only grow over the whole loop |
| CommandsSamples.TrimStartSpec | src/commands.rs:104 | trimming the start removes exactly the leading whitespace: the result is a suffix starting with a non-space |
| CommandsSamples.TrimEndSpec | src/commands.rs:104 | trimming the end removes exactly the trailing whitespace: the result is a prefix ending with a non-space |
| CommandsSamples.Components | src/commands.rs:154-155 | a path's components are its non-empty pieces other than `.` |
| CommandsSamples.FileName | src/commands.rs:155 | a file name, when there is one, is a real component: not empty, `.` or `..`, and free of `/` |
| CommandsSamples.LastIndex | src/commands.rs:155 | the last occurrence of a character, or none when it does not occur |
| CommandsSamples.FileStem | src/commands.rs:155 | a file stem is a non-empty prefix of the file name |
| CommandsSamples.StemAndExtension | src/commands.rs:155 | a name is its stem, a dot and its dot-free extension, or just its stem when it has no extension |
| CommandsSamples.SetNameShape | src/commands.rs:194-208 | the set name is never empty and never starts with a digit: "default" without a stem, the stem prefixed with `_` when it starts with a digit, otherwise the stem |
| CommandsSamples.LoweredSpec | src/commands.rs:158-160 | the lowered tokens are exactly the lower-cased versions of the tokens |
| CommandsSamples.KeywordSet | src/commands.rs:149-162 | the keyword loop collects exactly the given keywords and the lower-cased stem tokens |
| CommandsSamples.LowerKeepsOut | src/commands.rs:157-159 | lower-casing a token brings in no separator |
| CommandsSamples.KeywordsFromStem | src/commands.rs:149-162 | every stem token appears lower-cased among the keywords, and none of the added keywords holds a separator |
| CommandsSamples.Deinterleave | src/commands.rs:128-134 | a stereo buffer splits into equally long channels: even-indexed samples left, odd-indexed right, a trailing odd sample dropped |
| CommandsSamples.Interleave | src/commands.rs:128-134 | interleaving alternates left and right samples and doubles the length |
| CommandsSamples.DeinterleaveRoundTrip | src/commands.rs:128-134 | interleaving the split channels gives back every complete frame of the buffer |
| CommandsSamples.BufferFor | src/commands.rs:125-147 | a mono sample is loaded as it is; a stereo sample not to be mixed down is split into two channels that interleave back to the file's samples; any other layout is mixed down to one sample per frame (a short last frame included); zero channels panic |
| CommandsSamples.DownmixLength | src/commands.rs:138-141 | mixing down gives exactly as many samples as frames of the channel count are needed to hold the file's samples |
| CommandsSamples.DownmixStereo | src/commands.rs:138-141 | a stereo file mixed down is, frame by frame, the average of its left and right samples |
| CommandsSamples.DownmixFrame | src/commands.rs:138-141 | a left-right frame in front of the rest mixes down to the frame's average in front of the rest's mix |
| CommandsSamples.SumPair | src/commands.rs:140 | a two-sample frame sums to its two samples |
| CommandsSamples.SampleRegistry.constructor | src/commands.rs:91-99 | the registry starts with no sample entries, no functions and no loaded buffers |
| CommandsSamples.SampleRegistry.LoadSample | src/commands.rs:91-184 | a path that is not flac or wav, or that does not decode, changes nothing; otherwise one entry with the keyword set and the duration clamped to 10000 is added, the set becomes a function, and the keywords are drained |
| CommandsSamples.SampleRegistry.LoadFile | src/commands.rs:214-229 | a listed file adds its entry and its set name exactly when it has an audio extension and decodes |
| CommandsSamples.SampleRegistry.LoadSampleSet | src/commands.rs:186-234 | a directory adds one entry per loadable file under its set name, and the set name becomes a function exactly when some file loads |
| CommandsSamples.EntriesShape | src/commands.rs:210-233 | a directory yields at most one entry per file, each under the set name with a clamped duration, and some entry exactly when some file loads |
| CommandsSamples.ListingStep | src/commands.rs:211-232 | the listing's entries grow file by file in order |
| CommandsExport.ExportName | src/commands.rs:490-500 | the name loop builds the base and each piece joined by `_`, with `.dot` appended and no trailing separator |
| CommandsExport.JoinSnoc | src/commands.rs:494-497 | joining one more piece appends a separator and that piece |
| CommandsExport.PrefixedJoin | src/commands.rs:490-499 | pushing each piece after a separator equals joining the base and the pieces |
| CommandsExport.NameSplits | src/commands.rs:490-500 | with separator-free base and tags, an export name ends in `.dot` and splits on `_` back into the base and its pieces |
| CommandsExport.ExportPart | src/commands.rs:481-506 | a combined part exports one name per generator, tagged with the part name and the generator's tags; any other part, or none, exports nothing |
| CommandsExport.Picked | src/commands.rs:517-523 | picking never yields more generators than are running |
| CommandsExport.PickedExactly | src/commands.rs:517-523 | a running generator is exported exactly when its tags meet the query |
| CommandsExport.PickedAppend | src/commands.rs:517-523 | picking respects the order of the running generators |
| CommandsExport.ExportRunning | src/commands.rs:508-541 | the running export names exactly the picked generators, in order, each by its tags |
| CommandsExport.NothingMet | src/commands.rs:518 | when no running generator shares a tag with the query, nothing is exported |
| CommandsOnce.InstanceParamRules | src/commands.rs:587-631 | durations, attack, sustain and release in milliseconds become seconds and other values for them are dropped; the pan is translated only in stereo; every other parameter passes unchanged; nothing is added |
| CommandsOnce.StereoPanUnipolar | src/commands.rs:590-592 | in stereo a bipolar pan reaches the instance as a unipolar one |
| CommandsOnce.SetInstanceParams | src/commands.rs:587-632 | the parameter loop sets exactly the specified instance parameters |
| CommandsOnce.Triggered | src/commands.rs:568-637 | at most one triggered instance per event |
| CommandsOnce.Enveloped | src/commands.rs:568-573 | every event except silence gets its envelope built; silence is left alone |
| CommandsOnce.OnceEvent | src/commands.rs:569-636 | one event is skipped when silent, and otherwise has its envelope built and is triggered as specified when an instance can be prepared |
| CommandsOnce.Once | src/commands.rs:568-637 | every sound event is processed in order: the envelopes are built and the instances triggered as specified |
| CommandsOnce.SilenceSkipped | src/commands.rs:569-571 | silence events trigger nothing and are left unchanged |
| CommandsOnce.TriggeredFrom | src/commands.rs:568-637 | every triggered instance comes from one of the events |
| LivecodeTextEdit.LivecodeTextEditState.constructor | src/editor/livecode_text_edit.rs:74-82 | a new editor state has no cursor range of either form and no selection toggle |
| LivecodeTextEdit.LivecodeTextEditState.SetCCursorRange | src/editor/livecode_text_edit.rs:74-77 | setting a character range clears the layout range, so at most one form is held and it is the one set |
| LivecodeTextEdit.LivecodeTextEditState.SetCursorRange | src/editor/livecode_text_edit.rs:79-82 | setting a layout range clears the character range, so at most one form is held, and the current range is its characters |
| LivecodeTextEdit.Clip | src/editor/livecode_text_edit.rs:984-986 | a position is clipped into the text and a position inside is kept |
| LivecodeTextEdit.DeleteInserted | src/editor/livecode_text_edit.rs:984-1001 | deleting what was just inserted gives back the text |
| LivecodeTextEdit.RangeSplits | src/editor/livecode_text_edit.rs:979-1001 | a text is the part before a range, the selected characters and the part after; deleting the range keeps the outer parts and shortens the text by the range's length |
| LivecodeTextEdit.TextBuffer.constructor | src/editor/livecode_text_edit.rs:984-986 | a buffer holds the given text |
| LivecodeTextEdit.TextBuffer.InsertText | src/editor/livecode_text_edit.rs:984-986 | inserting puts the text at the position and reports how many characters were added |
| LivecodeTextEdit.TextBuffer.DeleteCharRange | src/editor/livecode_text_edit.rs:995-996 | deleting a character range removes exactly those characters |
| LivecodeTextEdit.InsertTextAt | src/editor/livecode_text_edit.rs:984-986 | `insert_text` inserts at the cursor and moves the cursor past the inserted text |
| LivecodeTextEdit.DeleteSelectedRange | src/editor/livecode_text_edit.rs:990-1001 | deleting the sorted selection removes it and leaves the cursor at its start |
| LivecodeTextEdit.DeletePreviousChar | src/editor/livecode_text_edit.rs:1003-1011 | the character before the cursor is removed and the cursor moves back by one; at index 0 nothing changes |
| LivecodeTextEdit.DeleteNextChar | src/editor/livecode_text_edit.rs:1013-1015 | the character after the cursor is removed and the cursor stays |
| LivecodeTextEdit.DeletePreviousRemovesOne | src/editor/livecode_text_edit.rs:1003-1011 | deleting the previous character removes exactly one character |
| LivecodeTextEdit.WordRun | src/editor/livecode_text_edit.rs:1288-1293 | a maximal run of characters that are all word characters or all not |
| LivecodeTextEdit.NextWordBoundaryIndex | src/editor/livecode_text_edit.rs:1282-1298 | the loop returns exactly the specified word boundary |
| LivecodeTextEdit.NextWordBoundaryBounds | src/editor/livecode_text_edit.rs:1282-1298 | the boundary is never before the start, advances by at least one inside the text, and ends a maximal run of the second character's kind |
| LivecodeTextEdit.Reverse | src/editor/livecode_text_edit.rs:1273-1280 | reversing keeps the length and mirrors every index |
| LivecodeTextEdit.PreviousWordBoundaryBounds | src/editor/livecode_text_edit.rs:1273-1280 | the previous word boundary is never after the cursor, and strictly before it unless at 0 |
| LivecodeTextEdit.DeletePreviousWord | src/editor/livecode_text_edit.rs:1017-1021 | the text from the previous word boundary to the cursor is removed and the cursor moves to the boundary |
| LivecodeTextEdit.DeleteNextWord | src/editor/livecode_text_edit.rs:1022-1026 | the text from the cursor to the next word boundary is removed and the cursor stays |
| LivecodeTextEdit.FindLineStart | src/editor/livecode_text_edit.rs:1306-1324 | the line start is just after the nearest newline before the cursor, or 0, with no newline between it and the cursor |
| LivecodeTextEdit.LineStartIdempotent | src/editor/livecode_text_edit.rs:1306-1324 | the line start of a line start is itself |
| LivecodeTextEdit.Utf8Length | src/editor/livecode_text_edit.rs:680 | a text's UTF-8 byte length is at least its character count |
| LivecodeTextEdit.WrapSelectionAsWritten | src/editor/livecode_text_edit.rs:675-722 | as written, the selection is wrapped in the brackets and the cursor is moved back by the selection's byte length plus one (see Findings) |
| LivecodeTextEdit.WrapSelection | src/editor/livecode_text_edit.rs:675-722 | typing an opening bracket over a selection wraps it in the pair and puts the cursor just after the opening bracket, the intended cursor (see Findings) |
| LivecodeTextEdit.WrapCursorAfterOpening | src/editor/livecode_text_edit.rs:675-722 | the wrapped text has the opening bracket at the selection start, the selection after it, the closing bracket after that, and is two longer |
| LivecodeTextEdit.AsciiLength | src/editor/livecode_text_edit.rs:680 | an ASCII text is as long in bytes as in characters |
| LivecodeTextEdit.WrapAsciiAgrees | src/editor/livecode_text_edit.rs:675-722 | for an ASCII selection the as-written cursor is just after the opening bracket |
| LivecodeTextEdit.WrapMisplacesCursor | src/editor/livecode_text_edit.rs:675-687 | wrapping a selected `é` puts the as-written cursor before the opening bracket |
| LivecodeTextEdit.WrapPanics | src/editor/livecode_text_edit.rs:675-687 | wrapping a selected `éé` makes the as-written cursor subtraction underflow |
| LivecodeTextEdit.OnText | src/editor/livecode_text_edit.rs:665-726 | any text switches the selection toggle off; empty text and newlines do nothing more; an opening bracket or quote wraps the selection with the intended cursor (see Findings); any other text replaces the selection and the cursor follows it |
| LivecodeTextEdit.BackspaceAtStartPanics | src/editor/livecode_text_edit.rs:1075-1081 | as written, Backspace at index 0 of a non-empty text panics on `index - 1` |
| LivecodeTextEdit.BackspaceCorrected | src/editor/livecode_text_edit.rs:1066-1103 | the corrected Backspace agrees with the as-written one wherever that does not panic, and at index 0 leaves the text as it is |
| LivecodeTextEdit.BackspacePairs | src/editor/livecode_text_edit.rs:1084-1097 | Backspace between a matching pair removes both characters and moves the cursor back by one |
| LivecodeTextEdit.BackspaceSingle | src/editor/livecode_text_edit.rs:1075-1100 | a single-cursor Backspace changes the text and cursor as the corrected specification says |
| LivecodeTextEdit.Backspace | src/editor/livecode_text_edit.rs:1066-1103 | with Cmd, Backspace deletes from the start of the first selected position's paragraph to the selection's end, or the newline before a single cursor at a paragraph start; otherwise it deletes a selection, the previous word with alt or ctrl, and else one character or a matching pair |
| LivecodeTextEdit.Delete | src/editor/livecode_text_edit.rs:1104-1121 | with Cmd, Delete removes from the selection's start to the end of its last position's paragraph, or the newline after a single cursor at a paragraph end; otherwise it removes a selection, the next word with alt or ctrl, and else the next character; the cursor is left at the start |
| LivecodeTextEdit.ParagraphEnd | src/editor/livecode_text_edit.rs:1051-1055 | the paragraph end is the nearest newline at or after the cursor, or the end of the text, with no newline between the cursor and it |
| LivecodeTextEdit.SameParagraph | src/editor/livecode_text_edit.rs:1027-1061 | a cursor's paragraph end has the cursor's own line start, so both ends bound one paragraph |
| LivecodeTextEdit.DeleteParagraphBeforeCursor | src/editor/livecode_text_edit.rs:1027-1043 | the text from the paragraph start of the selection's start up to its end is removed and the cursor goes to that start; a single cursor at a paragraph start deletes the preceding character instead, and nothing at 0; Ctrl-U does the same |
| LivecodeTextEdit.DeleteParagraphAfterCursor | src/editor/livecode_text_edit.rs:1045-1061 | the text from the selection's start to the paragraph end of its end is removed, or the next character when that range is empty; the cursor stays at the start; Ctrl-K does the same |
| LivecodeTextEdit.ParagraphDeletesStayOnLine | src/editor/livecode_text_edit.rs:1027-1061 | from a single cursor, the characters deleted up to the paragraph start or end hold no newline, and the rest of the text is kept on either side |
| LivecodeSexp.Indent | src/editor/livecode_text_edit.rs:1467-1470 | the indentation after a newline is two spaces per open level, none at level 0 or below |
| LivecodeSexp.FormatSexp | src/editor/livecode_text_edit.rs:1446-1487 | the character loop produces exactly the formatting specification |
| LivecodeSexp.RunAppend | src/editor/livecode_text_edit.rs:1451-1485 | formatting two texts in a row equals formatting their concatenation |
| LivecodeSexp.RunExtends | src/editor/livecode_text_edit.rs:1451-1485 | formatting only appends to the output |
| LivecodeSexp.FormatLevel | src/editor/livecode_text_edit.rs:1453-1461 | the formatter's level is the balance of opening over closing parentheses |
| LivecodeSexp.FormatNewline | src/editor/livecode_text_edit.rs:1463-1470 | a newline is emitted followed by two spaces per open parenthesis before it |
| LivecodeSexp.SpacesSkipped | src/editor/livecode_text_edit.rs:1472-1476 | spaces right after a newline or a space are dropped |
| LivecodeSexp.FormatStable | src/editor/livecode_text_edit.rs:1446-1487 | formatting formatted text ends in the same state as formatting the original |
| LivecodeSexp.FormatIdempotent | src/editor/livecode_text_edit.rs:1446-1487 | formatting twice gives the same text as formatting once, so Tab on a formatted expression changes nothing |
| LivecodeSexp.ContentAppend | src/editor/livecode_text_edit.rs:1446-1487 | the non-whitespace content of a concatenation is the concatenation of the contents |
| LivecodeSexp.ContentOfIndent | src/editor/livecode_text_edit.rs:1467-1470 | indentation has no content |
| LivecodeSexp.FormatKeepsContent | src/editor/livecode_text_edit.rs:1446-1487 | formatting keeps every character other than spaces and tabs, in order |
| LivecodeSexp.FormatDropsTabs | src/editor/livecode_text_edit.rs:1478-1480 | formatted text holds no tab |
| LivecodeSexp.FormatSingleSpaces | src/editor/livecode_text_edit.rs:1472-1477 | on one line, formatted text never holds two spaces in a row |
| LivecodeSexp.SexpIndentLevel | src/editor/livecode_text_edit.rs:1492-1506 | the counting loop gives exactly the specified level, or the usize underflow panic |
| LivecodeSexp.PanicStays | src/editor/livecode_text_edit.rs:1492-1506 | once a prefix underflows, the whole text does |
| LivecodeSexp.IndentLevelBalance | src/editor/livecode_text_edit.rs:1492-1506 | the level is computed exactly when no prefix closes more than it opens, and is then the number of opening minus closing parentheses |
| LivecodeSexp.StartOf | src/editor/livecode_text_edit.rs:1366-1378 | the scan starts at the cursor, or one further when the cursor is on an opening parenthesis |
| LivecodeSexp.LeftFrom | src/editor/livecode_text_edit.rs:1392-1411 | the left scan only moves left, and a found opening position holds an opening parenthesis left of the start |
| LivecodeSexp.RightFrom | src/editor/livecode_text_edit.rs:1413-1429 | the right scan only moves right, and a recorded closing position follows a closing parenthesis |
| LivecodeSexp.ToplevelSexp | src/editor/livecode_text_edit.rs:1351-1443 | a found expression starts at an opening parenthesis left of the search start (one past a parenthesis under the cursor) and ends at or after it: just after a closing parenthesis, or at the search start itself when the rightward scan found none, text after the last closing parenthesis included |
| LivecodeSexp.TrailingTextIncluded | src/editor/livecode_text_edit.rs:1392-1443 | at the end of `(a) b` the found range is the whole text, so the trailing ` b` is evaluated with `(a)` |
| LivecodeSexp.NoOpeningNoSexp | src/editor/livecode_text_edit.rs:1431-1443 | without an opening parenthesis left of the start nothing is found |
| LivecodeSexp.ScanLeft | src/editor/livecode_text_edit.rs:1392-1411 | the left loop gives exactly the left scan specification |
| LivecodeSexp.ScanRight | src/editor/livecode_text_edit.rs:1413-1429 | the right loop gives exactly the right scan specification |
| LivecodeSexp.FindToplevelSexp | src/editor/livecode_text_edit.rs:1351-1443 | the finder gives exactly the specified range, or none |
| LivecodeSexp.NestedFindsOuter | src/editor/livecode_text_edit.rs:1351-1443 | inside `(a (b))` the whole outer expression is found |
| LivecodeSexp.SecondLineFound | src/editor/livecode_text_edit.rs:1392-1397 | on the second of two top-level expressions, only that one is found |
| LivecodeSexp.FormatToplevel | src/editor/livecode_text_edit.rs:732-751 | Tab replaces the top-level expression around the cursor by its formatting, and does nothing when there is none |
| LivecodeSexp.ToplevelFormatKeepsContent | src/editor/livecode_text_edit.rs:732-751 | Tab never changes anything but whitespace |
| LivecodeSexp.ReplaceKeepsContent | src/editor/livecode_text_edit.rs:743-747 | replacing any range by its formatting keeps the text's content |
| LivecodeSexp.Enter | src/editor/livecode_text_edit.rs:752-784 | Enter switches the selection toggle off; command-Enter leaves the text alone and hands the top-level expression to evaluation; plain Enter replaces the selection by a newline |
| LivecodeSexp.EvaluatedIsExpression | src/editor/livecode_text_edit.rs:758-771 | the evaluated code starts with an opening parenthesis; it ends with a closing one unless it ends at the search start, in which case any trailing text after the last closing parenthesis is evaluated with it |
| CustomEditbox.Replaced | src/editor/custom_editbox.rs:432-440 | replacing a range changes the length by the inserted text minus the removed range |
| CustomEditbox.AfterChar | src/editor/custom_editbox.rs:420-445 | receiving a character keeps the edit box state consistent (positions and snapshot within their texts) |
| CustomEditbox.FirstControl | src/editor/custom_editbox.rs:661-672 | the truncation point of a paste lies within the pasted text |
| CustomEditbox.Swapped | src/editor/custom_editbox.rs:681-695 | swapping with the snapshot keeps the state consistent |
| CustomEditbox.KeyAction | src/editor/custom_editbox.rs:448-699 | every control key yields a consistent state and an action that fits it |
| CustomEditbox.ApplyAction | src/editor/custom_editbox.rs:700-745 | applying an action keeps the state consistent |
| CustomEditbox.AfterKey | src/editor/custom_editbox.rs:448-761 | a control key keeps the state consistent |
| CustomEditbox.NotEditableIgnores | src/editor/custom_editbox.rs:420-423 | a non-editable box answers Unhandled to characters and control keys and changes nothing |
| CustomEditbox.TypedBeforeCursor | src/editor/custom_editbox.rs:432-440 | a typed character replaces the selection, or is inserted at the cursor, and the cursor sits right after it |
| CustomEditbox.TypingUndoes | src/editor/custom_editbox.rs:428-440 | the first character of a typing group snapshots the state, so undo restores the text and positions from before it |
| CustomEditbox.TypingGroups | src/editor/custom_editbox.rs:428-431 | a second typed character takes no new snapshot, so one undo removes both |
| CustomEditbox.UndoTwice | src/editor/custom_editbox.rs:681-695 | undoing twice restores the text and positions, keeps the snapshot and resets the edit kind |
| CustomEditbox.UndoIsRedo | src/editor/custom_editbox.rs:681-695 | Undo and Redo are the same swap with the snapshot |
| CustomEditbox.FirstControlSpec | src/editor/custom_editbox.rs:661-672 | the truncation point is the first control character, or the end when there is none |
| CustomEditbox.PasteTruncates | src/editor/custom_editbox.rs:659-680 | a single-line paste is the longest prefix free of control characters (below U+0020 or U+007F to U+009F); a multi-line paste is taken whole |
| CustomEditbox.DeleteSelection | src/editor/custom_editbox.rs:599-658 | Delete, Backspace and Cut on a selection remove exactly the selection and put the cursor at its start |
| CustomEditbox.BackspaceOneChar | src/editor/custom_editbox.rs:622-640 | plain Backspace without a selection removes exactly the character before the cursor, and nothing at the start |
| CustomEditbox.DeletesGroup | src/editor/custom_editbox.rs:707-737 | two Backspaces in a row share one snapshot taken before the first |
| CustomEditbox.SelectAllSelects | src/editor/custom_editbox.rs:641-650 | select-all selects the whole text with the cursor at the end and changes no text |
| CustomEditbox.EscapeDeselects | src/editor/custom_editbox.rs:470-478 | Escape drops a selection, and is unhandled when there is none |
| CustomEditbox.ReturnByMode | src/editor/custom_editbox.rs:479-486 | in a multi-line box Return activates with ctrl and otherwise inserts a newline; a single-line box leaves it unhandled |
| CustomEditbox.CutAndCopy | src/editor/custom_editbox.rs:651-658 | Cut and Copy put the selected text on the clipboard; Copy changes nothing |
| CustomEditbox.ClampAxis | src/editor/custom_editbox.rs:772-784 | an offset is clamped into 0..max and an offset inside is kept |
| CustomEditbox.MaxOffset | src/editor/custom_editbox.rs:773-775 | the scrollable extent is the required size beyond the bounds, rounded up, cast to `i32` with saturation and never negative; in range it is exactly the rounded-up excess |
| CustomEditbox.PanOffset | src/editor/custom_editbox.rs:772-784 | panning clamps the offset into the scrollable area and moves it by exactly the delta when that stays inside |
| CustomEditbox.PanByNothing | src/editor/custom_editbox.rs:772-784 | a zero pan keeps an offset inside the area, and clamping twice equals clamping once |
| CustomEditbox.OnlyTouchPressStarts | src/editor/custom_editbox.rs:852-960 | only a touch press on an idle box enters the start phase; moves, ends and the timer never enter it |
| CustomEditbox.StartedMovePans | src/editor/custom_editbox.rs:884-893 | a move of the started touch starts panning; a move of another touch changes nothing |
| CustomEditbox.TimerAndEnd | src/editor/custom_editbox.rs:902-960 | the timer turns a started touch into cursor placement; the matching press end ends any phase, another touch's end changes nothing |
| CustomEditbox.EditBox.constructor | src/editor/custom_editbox.rs:297-318 | a new box holds the text with the cursor at its end, no snapshot, editable and single-line, unscrolled and without touch |
| CustomEditbox.EditBox.TakeSnapshot | src/editor/custom_editbox.rs:428-431 | a snapshot is stored when asked and the edit kind recorded |
| CustomEditbox.EditBox.ReceivedChar | src/editor/custom_editbox.rs:420-445 | `received_char` changes the box exactly as specified |
| CustomEditbox.EditBox.PasteEnd | src/editor/custom_editbox.rs:661-672 | the paste loop stops at the first control character in single-line mode, and at the end otherwise |
| CustomEditbox.EditBox.SwapWithSnapshot | src/editor/custom_editbox.rs:681-695 | the undo swap changes the box exactly as specified |
| CustomEditbox.EditBox.KeyStep | src/editor/custom_editbox.rs:448-699 | the key match changes the box and chooses the action exactly as specified |
| CustomEditbox.EditBox.Apply | src/editor/custom_editbox.rs:700-745 | the action dispatch changes the box exactly as specified |
| CustomEditbox.EditBox.ControlKey | src/editor/custom_editbox.rs:448-761 | `control_key` changes the box and the clipboard exactly as specified |
| CustomEditbox.EditBox.PanDelta | src/editor/custom_editbox.rs:772-784 | the view offset is panned and clamped, and the answer is whether it changed |
| CustomEditbox.EditBox.PlaceCursor | src/editor/custom_editbox.rs:763-770 | without ctrl the cursor moves to the nearest position, extending the selection with shift; with ctrl nothing moves |
| CustomEditbox.EditBox.PressStartTouch | src/editor/custom_editbox.rs:852-857 | a touch press records the start phase as specified |
| CustomEditbox.EditBox.PressMove | src/editor/custom_editbox.rs:865-900 | a move pans the view in the pan phase, leaving the cursor and its remembered column alone, and otherwise places the cursor and forgets the column |
| CustomEditbox.EditBox.PressEnd | src/editor/custom_editbox.rs:902-928 | the phase ends as the touch phases specify; ending the started touch without Ctrl places the cursor at the nearest position, empties the selection unless Shift is held and forgets the remembered column; with Ctrl, or for any other end, cursor, selection and column are unchanged |
| CustomEditbox.EditBox.TimerUpdate | src/editor/custom_editbox.rs:947-960 | a started touch turns into cursor placement; without Ctrl the cursor goes to the nearest position, the selection empties unless Shift is held and the remembered column is forgotten; with Ctrl, or in any other phase, cursor, selection and column are unchanged |
| CustomEditbox.BackspaceSnapshot | src/editor/custom_editbox.rs:700-737 | Backspace records a deletion and takes a snapshot only when the last edit was not a deletion |

## Left out

- Floating point: `f32` values are real numbers, so rounding is not modelled. The downmix average and the envelope arithmetic are exact.
- CommandsSamples.SampleRegistry.LoadSample: a decoded file reporting zero channels is excluded by a precondition. `BufferOf` panics for it, as `chunks(0)` does, but the registry does not follow that panic.
- CommandsSamples.SampleRegistry.LoadFile: the same precondition, for the file's decoded form.
- CommandsSamples.SampleRegistry.LoadSampleSet: the same precondition, for every listed file.
- Randomness: the random draw of `shake` and the random edges of the Markov chain are function parameters. `randomize_edges`, `rebalance` and the PFA inference of `nuc`/`fact` are not modelled; the model keeps only the chance value that `fact` stores.
- The Markov sequence generator at a generator's root (`MarkovSequenceGenerator`) is not modelled beyond its interface: its next symbol and its transfer are parameters of the generator model.
- Generator modifiers (the `gen-mod` functions) and processors other than `every` are not modelled. They appear only as processors with the default hooks.
- `HashMap` iteration order (the filtered events, the static events) is modelled as the order of a sequence. `BTreeSet` tag order is modelled the same way.
- Generator.Generator.CurrentEvents: while the processors run, `current_events` moves them out of the generator and appends them back afterwards. A generator modifier running in that loop sees no processors, and any processor it adds ends up before the original ones. The model records the generator-modifier calls (`genModCalls`) without carrying them out, so this state and ordering are not modelled.
- `Modifier::evaluate` is modelled on its static value. The phase advance of an oscillator or envelope modifier, and its `f32` waveform, are not modelled.
- The sample sets, the music-theory conversions, `map_parameter` and `get_keyword_params` come from outside the evaluators. They are parameters of the model (a lookup, a frequency function, a keyword-to-label function `mapParam`, a keyword reader). Nothing is assumed about `mapParam`: a keyword may name any label, a default one included. Labels the model does not enumerate are `OtherLabel(name)`.
- `get_float_from_expr` is modelled as "the item is a float".
- Events.EventWithName: `Event::with_name` is taken to give a replacing event with no parameters and no tags. `event.rs` is not part of this model.
- Generator.NewDuration: dividing a duration by zero gives an `f32` infinity or NaN, which is no real number. The model leaves that value to a function parameter `divByZero`, so nothing is proved about it beyond its being what the division gives.
- Sound.SampleEvent: the sustain `duration - 2` is computed on integers, so a sample shorter than 2 ms gets a negative sustain. The type of `SampleInfo::duration` is not part of this model; if it is unsigned, the source underflows there instead (a panic in a debug build, a wrap-around in a release build).
- `build_envelope` and `prepare_instance` in `once` are parameters. Control events and `handle_context` are not modelled.
- The `OutputMode` is reduced to the number of channels that the de-interleaving needs.
- The defaults of `LifemodelProcessor::new` are not in the files modelled. The constructor takes its initial fields as an argument.
- Lower-casing and digit checks are ASCII only. `Path` semantics are approximated by splitting on `/` and the last `.`.
- File I/O of the commands is not modelled: reading a directory or a WAV file, `load_sample_sets`, recording, `freeze`, `step_part`, the wave matrix and `export_dot_static`. Directory listings and decoded buffers are inputs.
- LivecodeTextEdit.BackspaceAtStartPanics: the `usize` underflow of `index - 1` is modelled as the panic of a debug build. In a release build the index wraps, the lookup finds nothing and the text is left as it is.
- LivecodeTextEdit.WrapPanics: the underflow of the cursor subtraction is modelled as the panic of a debug build. A release build wraps the index around, and that is not modelled.
- LivecodeSexp.SexpIndentLevel: the `usize` underflow of the level on a closing parenthesis too many is modelled as the panic of a debug build. A release build wraps around, and that is not modelled.
- LivecodeSexp.IndentLevelAsWritten: the same debug-build panic.
- CustomEditbox.PanOffset: the `i32` subtraction `view_offset - delta` is unbounded in the model, so its overflow is not modelled.
- Cycle.BuildCycle: the `len - 1` of `loop.rs` on an empty item list is modelled as the panic of a debug build. A release build would wrap around, and that is not modelled.
- LivecodeSexp.FindToplevelSexp: the scan uses byte positions of the text. The model indexes characters, so it is exact for ASCII text.
- LivecodeSexp.FindToplevelSexp: the result is a range from the opening to the closing bracket, not egui's `CCursorRange::two(right, left)`. Every caller sorts the range before using it.
- LivecodeSexp.FormatSexp: the `i32` indentation counter is unbounded in the model, so its overflow on deeply nested text is not modelled.
- LivecodeSexp.FormatToplevel: returns only whether a top-level expression was found and formatted. The cursor that Tab restores is not modelled.
- EveryProcessor.EveryProcessor.ProcessEvents: decides which entries are due with `Fires`, the intended test of the first Findings row, under which a period of 0 never fires. The source panics on `step_count % 0` there.
- EveryProcessor.EveryProcessor.ProcessGenerator: the same intended due test as ProcessEvents.
- EveryProcessor.EveryProcessor.ProcessTransition: the same intended due test as ProcessEvents.
- Sound.HeadOf: the sampler head consumes the sample position number, the intended behaviour of the second Findings row. As written, the number is left for the keyword loop, which stops at it; SamplePositionDropsKeywords shows that.
- Sound.EvalHead: built on the same intended sampler head as HeadOf.
- Sound.SoundOf: built on the same intended sampler head as HeadOf.
- Sound.EvalSound: built on the same intended sampler head as HeadOf.
- LivecodeTextEdit.WrapSelection: puts the cursor just after the opening bracket for every selection, the intended behaviour of the third Findings row. As written (WrapSelectionAsWritten), a selection with non-ASCII characters puts it elsewhere or underflows.
- LivecodeTextEdit.OnText: wraps through WrapSelection, so it has the same intended cursor.
- LivecodeTextEdit.Backspace: a single cursor at index 0 follows BackspaceResult, the intended behaviour of the fourth Findings row, and changes nothing; a debug build panics there.
- LivecodeTextEdit.ParagraphEnd: egui's paragraphs are taken to be the pieces of the text between `\n` characters, as FindLineStart already does for their starts; the galley itself is not modelled.
- LivecodeSexp.ToplevelSexp: when the rightward scan does not pass the cursor, the range ends at the cursor, so text after the last closing parenthesis is part of what Cmd-Enter evaluates (TrailingTextIncluded). The model keeps this behaviour of the source.
- Cursor positions in the text editors are character indices. The byte-length mix-up of bracket wrapping is the only place that counts UTF-8 bytes.
- Double-click word selection (`select_word_at`, `ccursor_next_word`) is not modelled.
- Layout (`find_line`, glyph positions, `set_view_offset_from_edit_pos`) and text segmentation are not modelled. Their answers are carried by the key (line start, navigation target, next or previous word boundary) or passed as the nearest cursor position.
- The edit box's selection helper is assumed to behave as follows: `set_pos` sets both ends, `set_edit_pos` sets only the edit position, and `set_empty` collapses the selection onto the edit position.
- Not modelled for the edit box: the mouse-press anchor and selection extension, line-delta scrolling, focus loss, the egui undoer, IME input and painting.

## Findings

| source | as written | input that shows it | evidently intended | confidence | as-written member | corrected member |
|---|---|---|---|---|---|---|
| src/generator_processor/every_processor.rs:34-36 | the period `(x as usize) % 101` is used as a modulus, `step_count % period` | a step of 0 or 101 makes the period 0, so the modulo panics | a period of 0 never fires | not executed | EveryProcessor.ZeroPeriodPanics | EveryProcessor.FiresCorrected |
| src/parser/eval/events/sound.rs:424-426 | the sample position number is peeked but not consumed, so the keyword loop at line 456 stops at it | `(bd 2 :lvl 0.9)` keeps the default level 0.5 instead of 0.9 | the position is consumed and the keywords that follow apply | not executed | Sound.SamplePositionDropsKeywords | Sound.SamplePositionKeepsKeywords |
| src/editor/livecode_text_edit.rs:675-722 | wrapping a selection in brackets subtracts the selection's UTF-8 byte length from a character index | selecting `é` and typing `(` puts the cursor at 0; selecting `éé` underflows, which panics in a debug build | the cursor lands after the opening bracket, one character past the selection start | not executed | LivecodeTextEdit.WrapMisplacesCursor | LivecodeTextEdit.WrapSelection |
| src/editor/livecode_text_edit.rs:1075-1081 | Backspace computes `index - 1` on a `usize` before checking the index | Backspace with the cursor at 0 in a non-empty text panics in a debug build; a release build wraps, finds nothing and already changes nothing | Backspace at the start changes nothing | not executed; debug build only | LivecodeTextEdit.BackspaceAtStartPanics | LivecodeTextEdit.BackspaceCorrected |
