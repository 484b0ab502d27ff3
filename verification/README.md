# react-native-nativescript: the Podfile helper and the bridge listener, in Dafny

This project models two pieces of logic from the React Native plug-in that embeds a
NativeScript runtime:

- **The Podfile helper `use_nativescript`** (`example/ios/use_nativescript.rb`). It
  edits the app target of an Xcode project:
  - It finds or creates three shell-script phases: NativeScript prebuild, prelink and
    postbuild.
  - It reorders them with `delete_at`/`insert` around Compile Sources and Link Binary
    With Libraries.
  - It adds an embed-frameworks phase, puts the user bundle in Copy Bundle Resources
    and adds the meta group's source files to Compile Sources, each only when absent.
  - For every build configuration, it writes the NativeScript build settings. It
    appends the NativeScript linker flags to `OTHER_LDFLAGS` unless the hand-written
    search `array_includes_array` already finds them there.
- **The listener side of the bridge** (`src/bridge/myBridge.ts`):
  - the platform flags;
  - the module-level `unsubscribe` variable;
  - `initBridge`, which registers one observer on the iOS notification centre and
    stores the teardown closure that removes it;
  - the notification block, which calls the `resolve` callback it finds.

The files and what they hold:

- `common.dfy`: `Option` and string prefix/suffix tests.
- `subarray_search.dfy`: `array_includes_array` as a method with a loop. It is proved
  against `Includes`, a fold over the slots the Ruby loop visits. That includes the
  `nil` read one past the end, because `0..inspectLength` is an inclusive range.
- `build_settings.dfy`: the `OTHER_LDFLAGS` merge and the other six settings.
  - `BuildConfiguration` is a class whose map of settings is updated key by key.
  - `ApplyToConfigurations` is the loop over the configurations.
- `ruby_arrays.dfy`: Ruby's `index`, `delete_at` and `insert`. An `insert` past the
  end pads with `nil`.
- `build_phases.dfy`: phases as a datatype, shell-phase find-or-create, and the
  reordering as written. It also holds the corrected reordering.
- `file_references.dfy`: the add-if-absent checks and the compile-sources filter.
- `xcode_target.dfy`: `NativeTarget`, a class whose `buildPhases` the methods edit in
  place, line block by line block. Each method is proved equal to the functions above.
- `bridge.dfy`: the class `BridgeModule`, holding `unsubscribe` and the observers the
  notification centre holds, with `InitBridge`, the teardown and call sequences.

An `exit(1)`, and a Ruby error the helper would raise, are `Failure` values:
- `delete_at(nil)` and `insert(nil, …)` raise `NilIndex`;
- `start_with?` on a nil file type raises `NilFileType`;
- `add_file_reference` on a nil linking phase raises `NilLinkingPhase`.

A throw in `initBridge` is an `InitResult.Threw`.

The model follows the code wherever the code and the repository's prose disagree:
- The doc comment of `initBridge` (myBridge.ts lines 16-17) says a second call returns
  null. The code returns the stored callback, and so does the model.

The bridge listens on `"NativeScriptBridge"` and only ever calls `resolve(null, 123)`.

## Model

| member | source | states |
|---|---|---|
| SubarraySearch.ArrayIncludesArray | example/ios/use_nativescript.rb:412-441 | For non-nil elements, the answer is the buffer scan `Includes`. An empty search gives true. A search longer than the inspected array gives false. A true answer means the search occurs contiguously. |
| SubarraySearch.Includes | example/ios/use_nativescript.rb:416-437 | The scan as written, for non-nil elements. An empty search gives true, and a search longer than the inspected array gives false. Soundness: a true answer means the search occurs contiguously in the inspected array. |
| SubarraySearch.FoundFromEmptyBuffer | example/ios/use_nativescript.rb:426-437 | An occurrence that starts while the buffer is empty is always completed by the scan. |
| SubarraySearch.MissesOccurrenceAfterMismatch | example/ios/use_nativescript.rb:426-433 | `[a, b]` occurs in `[a, a, b]`, yet the scan answers false: the mismatching `a` is not retried. |
| SubarraySearch.PartialBufferMissesCopy | example/ios/use_nativescript.rb:426-433 | A whole copy of a search array whose head is unique is missed when the buffer holds a non-empty partial match as the copy begins. |
| SubarraySearch.CopyAfterOneEmpties | example/ios/use_nativescript.rb:426-433 | For a search array whose head is unique, a copy of it read with one element already in the buffer leaves the buffer empty. |
| SubarraySearch.IncludesAppendedCopy | example/ios/use_nativescript.rb:426-437 | For a search array whose head is unique, a copy appended after a prefix is found iff the buffer is empty (or a match is already complete) after the prefix. |
| SubarraySearch.IncludesContiguous | example/ios/use_nativescript.rb:412-441 | The corrected test, which restarts at every index: true iff the search occurs contiguously. |
| SubarraySearch.IncludesImpliesContiguous | example/ios/use_nativescript.rb:412-441 | Wherever the written scan answers true, the corrected test answers true too. |
| BuildSettings.Inspected | example/ios/use_nativescript.rb:444-445 | A list setting is scanned as its own elements. A single-string setting is scanned as its one-character strings, element `i` being `[text[i]]`. |
| BuildSettings.ExistingLdFlags | example/ios/use_nativescript.rb:444 | The or-assignment: a set value is kept as it is; an unset key yields the empty list, in which the flags are never found. |
| BuildSettings.HasInherited | example/ios/use_nativescript.rb:455 | `include? "$(inherited)"`: for a list, some element is `$(inherited)`; for a string, `$(inherited)` occurs in it as a substring. |
| BuildSettings.Spread | example/ios/use_nativescript.rb:454 | The splat `*existing`: a list spreads into its elements; a single string stays one element. |
| BuildSettings.TextNeverIncludesFlags | example/ios/use_nativescript.rb:444-445 | A single-string OTHER_LDFLAGS never counts as containing the NativeScript flags. |
| BuildSettings.MergeOtherLdFlags | example/ios/use_nativescript.rb:444-457 | Flags found: the setting is unchanged. Otherwise the new list is exactly the spread existing value, then `$(inherited)` only if it was missing, then the NativeScript flags. A list result always contains the flags contiguously. |
| BuildSettings.MergeListStableIff | example/ios/use_nativescript.rb:444-457 | For a list setting: re-running the merge on its own output is a no-op iff the first run found the flags, or the scan's buffer is empty (or complete) where the appended flags begin. A single-string setting is always stable (`MergeTextIsStable`). |
| BuildSettings.MergeTextIsStable | example/ios/use_nativescript.rb:444-457 | For every single-string OTHER_LDFLAGS, the second merge finds the flags the first one appended and changes nothing. |
| BuildSettings.MergeListStableWhenLastFlagForeign | example/ios/use_nativescript.rb:444-457 | The second merge is a no-op whenever `$(inherited)` had to be added, or the last existing flag is not a NativeScript flag. |
| BuildSettings.MergeOfTemplateFlagsIsStable | example/ios/use_nativescript.rb:447-457 | For the initial flags `$(inherited) -ObjC -lc++`, the second merge finds the flags and changes nothing. |
| BuildSettings.MergeRepeatsAfterTrailingObjC | example/ios/use_nativescript.rb:444-457 | For `$(inherited) -ObjC`, the first run appends the NativeScript flags, and the second run appends a second copy. |
| BuildSettings.MergeSettlesAfterSecondRun | example/ios/use_nativescript.rb:444-457 | From the third run on, `$(inherited) -ObjC` is stable: the scan finds the second copy, so OTHER_LDFLAGS settles holding the flags twice. |
| BuildSettings.MergeOtherLdFlagsFixed | example/ios/use_nativescript.rb:444-457 | The merge with the corrected test keeps the existing value as a prefix, or the value itself when the flags occur. A list result contains the flags. |
| BuildSettings.FixedMergeIsIdempotent | example/ios/use_nativescript.rb:382-384 | With the corrected test, merging the merge's own output never changes it: the flags are recognised by their order, as the comment intends. |
| BuildSettings.WithNativeScriptValues | example/ios/use_nativescript.rb:360-466 | The seven assignments: the keys become the old keys plus the seven NativeScript keys. Each key written gets its constant, OTHER_LDFLAGS gets the merged value, and every other key keeps its value. |
| BuildSettings.WithValuesFixedPoint | example/ios/use_nativescript.rb:360-466 | Settings that already hold the six constant values, written with their own OTHER_LDFLAGS, are unchanged. |
| BuildSettings.SettingsStableIffMergeStable | example/ios/use_nativescript.rb:342-466 | Re-running the whole settings update is a no-op iff re-running the flag merge is one. |
| BuildSettings.NativeScriptSettings | example/ios/use_nativescript.rb:342-468 | One configuration's update: the keys become the old keys plus the NativeScript keys, every other key keeps its value, and a list or unset OTHER_LDFLAGS ends up containing the NativeScript flags contiguously. |
| BuildSettings.BuildConfiguration.UpdateOtherLdFlags | example/ios/use_nativescript.rb:444-459 | Only OTHER_LDFLAGS changes, and it becomes the merge of its old value; an unset key counts as `[]`. |
| BuildSettings.BuildConfiguration.ApplyNativeScriptSettings | example/ios/use_nativescript.rb:343-468 | The settings become the NativeScript update of the old settings. |
| BuildSettings.ApplyToConfigurations | example/ios/use_nativescript.rb:342-469 | Every configuration's settings become the NativeScript update of its old settings, each configuration exactly once. |
| RubyArrays.FirstIndex | example/ios/use_nativescript.rb:171 | `index` with a block: the first matching position, or nil iff nothing matches. |
| RubyArrays.DeleteAt | example/ios/use_nativescript.rb:185 | `delete_at`: one element shorter; elements before `i` stay, the later ones shift left. |
| RubyArrays.Insert | example/ios/use_nativescript.rb:183-186 | `insert`: `x` lands at `i`; elements from `i` on shift right. An index past the end is padded with the filler (`nil`). |
| RubyArrays.MoveIsPermutation | example/ios/use_nativescript.rb:189-193 | A move to an index inside the array keeps the length and the multiset of elements. |
| RubyArrays.MovePastEndPads | example/ios/use_nativescript.rb:183-186 | A move to one past the end leaves the rest in order, then `nil`, then the moved element. |
| RubyArrays.MoveDownLandsBefore | example/ios/use_nativescript.rb:189-193 | Moving an element back to the index of an earlier one puts it directly before that one. |
| RubyArrays.MoveUpLandsAfter | example/ios/use_nativescript.rb:189-193 | Moving an element forward to the index of a later one puts it directly after that one. |
| BuildPhases.WithShellPhase | example/ios/use_nativescript.rb:140-145 | The first shell phase with the name gets the script, or a new one is appended. The named phase exists afterwards, exactly once if it was absent, and no other phase changes. |
| BuildPhases.WithShellPhaseIdempotent | example/ios/use_nativescript.rb:141-144 | Running find-or-create again changes nothing: the shell phase is added at most once. |
| BuildPhases.MoveNamed | example/ios/use_nativescript.rb:189-193 | `insert(to, delete_at(index))`. A missing phase raises before any change. A nil target index raises after the delete. On success the phase sits at `to`, and a target inside the array keeps the multiset. |
| BuildPhases.ShellPhaseKeepsSources | example/ios/use_nativescript.rb:139-163 | Find-or-create of a shell-script phase neither makes nor removes a Compile Sources phase. |
| BuildPhases.PostbuildStep | example/ios/use_nativescript.rb:180-187 | With postbuild off nothing changes. With it on, a successful move puts the postbuild phase at the index after Compile Sources (0 on an empty array). |
| BuildPhases.SortPhases | example/ios/use_nativescript.rb:170-213 | No Compile Sources phase is the exit of line 176 with nothing changed. The exit for a missing linking phase is never reached. |
| BuildPhases.PrelinkStep | example/ios/use_nativescript.rb:195-213 | The prelink move never ends in the no-linking-phase exit: with no anchor, the `insert` raises first. |
| BuildPhases.MoveNamedKeepsPhases | example/ios/use_nativescript.rb:183-193 | A successful move keeps every phase and gains at most one `nil` of padding. |
| BuildPhases.SortKeepsPhases | example/ios/use_nativescript.rb:165-207 | The whole sort loses and gains no phase; at most one `nil` is added, by a postbuild move past the end. |
| BuildPhases.PrelinkStepKeepsPhases | example/ios/use_nativescript.rb:203-207 | The prelink move keeps the length and the multiset of phases. |
| BuildPhases.PrebuildPlacement | example/ios/use_nativescript.rb:189-193 | If prebuild starts after Compile Sources, it lands directly before it. If it starts before, it lands directly after it, because the index was taken before the delete. |
| BuildPhases.SortWithoutPostbuild | example/ios/use_nativescript.rb:171-207 | Without postbuild and with a linking phase, the sort is the prebuild move followed by the prelink move. |
| BuildPhases.ArrangePhases | example/ios/use_nativescript.rb:139-213 | The find-or-creates then the sort. A target without Compile Sources still ends in the exit of line 176; the exit of line 212 is never reached. |
| BuildPhases.ArrangeFirstRun | example/ios/use_nativescript.rb:139-213 | On a target with just Compile Sources and Link Binary With Libraries, the first run gives prebuild, Compile Sources, prelink, linking. |
| BuildPhases.ArrangeSecondRun | example/ios/use_nativescript.rb:139-213 | A second run turns that into Compile Sources, prebuild, linking, prelink. |
| BuildPhases.ArrangeThirdRun | example/ios/use_nativescript.rb:139-213 | A third run gives the first order back, so the order alternates forever. |
| BuildPhases.MoveBefore | example/ios/use_nativescript.rb:189-193 | The corrected move looks up the anchor after the delete. On success it keeps the length and multiset. |
| BuildPhases.MoveBeforePlacement | example/ios/use_nativescript.rb:165-166 | The corrected move puts the phase directly before the first anchor, from either side. |
| BuildPhases.MoveBeforeIdempotent | example/ios/use_nativescript.rb:189-193 | With one phase of that name, not itself an anchor, a second corrected move changes nothing. |
| BuildPhases.FixedPrebuildMoveSettles | example/ios/use_nativescript.rb:189-193 | With the corrected move, prebuild directly before Compile Sources stays where it is. |
| FileReferences.AddIfAbsent | example/ios/use_nativescript.rb:306-310 | The reference is appended iff no entry's path ends with the suffix. Otherwise the list is unchanged. |
| FileReferences.AddIfAbsentIdempotent | example/ios/use_nativescript.rb:306-310 | Adding a reference that matches its own suffix twice is the same as adding it once. |
| FileReferences.EmbedFilesAreBothFrameworks | example/ios/use_nativescript.rb:260-266 | A new embed phase holds exactly the NativeScript framework, then the widgets framework. |
| FileReferences.WithEmbedPhase | example/ios/use_nativescript.rb:253-269 | The embed phase is appended with its frameworks iff no phase has that name. Afterwards one exists, and the other phases are untouched. |
| FileReferences.WithEmbedPhaseIdempotent | example/ios/use_nativescript.rb:253-255 | A second run finds the embed phase and adds nothing. |
| FileReferences.WithBundleResource | example/ios/use_nativescript.rb:299-313 | There is no exit iff there is a resources phase. On success the first resources phase becomes exactly its add-if-absent of the bundle, and no other phase changes; it then holds an entry ending in `nativescript-bundle.js`. |
| FileReferences.WithBundleResourceIdempotent | example/ios/use_nativescript.rb:306-310 | A second run adds the bundle no more. |
| FileReferences.IsCompilable | example/ios/use_nativescript.rb:335 | The filter: the type starts with `sourcecode.`, does not end with `.h` and is not the module-map type. The property-list test is shown never to exclude anything. |
| FileReferences.AddSourceFiles | example/ios/use_nativescript.rb:331-340 | Compile Sources keeps its files and gains only new, compilable meta-group references, without duplicates. It fails iff some type is nil. Otherwise every compilable reference is present afterwards. |
| FileReferences.AddSourceFilesStops | example/ios/use_nativescript.rb:334-335 | After a nil file type stops the run, the later references change nothing. |
| FileReferences.AddSourceFilesIdempotent | example/ios/use_nativescript.rb:336-338 | A second run of the filter over the same meta group adds nothing. |
| FileReferences.WithCompileSources | example/ios/use_nativescript.rb:331-340 | Only the first Compile Sources phase changes. Its files become exactly those of `AddSourceFiles` over the meta group, with the same failure. |
| XcodeTarget.SortKeepsSources | example/ios/use_nativescript.rb:171-207 | A successful sort still has a Compile Sources phase. |
| XcodeTarget.ArrangeKeepsSources | example/ios/use_nativescript.rb:139-207 | After find-or-create and sort, Compile Sources is still there. |
| XcodeTarget.EmbedAndBundleKeepSources | example/ios/use_nativescript.rb:253-313 | The embed phase and the bundle leave the first Compile Sources phase at its index. |
| XcodeTarget.ShellPhaseKeeps | example/ios/use_nativescript.rb:139-163 | Find-or-create of a shell-script phase keeps every phase that does not carry its name. |
| XcodeTarget.MoveKeepsPhase | example/ios/use_nativescript.rb:180-207 | A successful `delete_at`/`insert` move keeps every phase. |
| XcodeTarget.ShellPhaseKeepsLinking | example/ios/use_nativescript.rb:139-163 | Find-or-create neither makes nor removes a Link Binary With Libraries phase. |
| XcodeTarget.SortKeepsLinking | example/ios/use_nativescript.rb:171-207 | A successful sort has a linking phase iff its input had one. |
| XcodeTarget.ArrangeKeepsLinking | example/ios/use_nativescript.rb:139-209 | So does the whole arrangement: `linkingPhase` at line 209 is nil iff the target had no linking phase. |
| XcodeTarget.EmbedAndBundleChangeOnlyFiles | example/ios/use_nativescript.rb:253-313 | Apart from the appended embed phase, the embed and bundle steps keep every phase at its index, and change only the files of a Copy Bundle Resources phase. |
| XcodeTarget.EmbedAddsOnlyEmbedPhase | example/ios/use_nativescript.rb:253-269 | The embed step adds one phase iff no phase has the embed name, and that phase is the embed phase with both frameworks, at the end; all else is unchanged. |
| XcodeTarget.BundleChangesOnlyFiles | example/ios/use_nativescript.rb:299-313 | Adding the bundle keeps the length and changes only the files of a Copy Bundle Resources phase. |
| XcodeTarget.CompileChangesOnlyFiles | example/ios/use_nativescript.rb:331-340 | Adding compile sources keeps the length and changes only the files of the Compile Sources phase. |
| XcodeTarget.AddsOnlyEmbedThenFiles | example/ios/use_nativescript.rb:253-340 | Changing only files after the embed step leaves the embed phase at the end and still adds nothing else. |
| XcodeTarget.FinishPhases | example/ios/use_nativescript.rb:253-340 | The embed phase, the bundle and the compile sources can stop only at the resources exit or at a nil file type. Whichever way they end (`AddsOnlyEmbedPhase`), one phase is added iff no phase has the embed name, and it is the embed phase, at the end, with both frameworks. Every other phase stays at its index; only Copy Bundle Resources and Compile Sources phases change, and only in their files. |
| XcodeTarget.FinishOutcome | example/ios/use_nativescript.rb:253-340 | Without a Copy Bundle Resources phase those steps stop at the resources exit (lines 300-303); with one, they go through iff every meta-group reference has a file type. |
| XcodeTarget.LinkAndFinish | example/ios/use_nativescript.rb:209-340 | After the reordering: with a framework reference to create and no linking phase, `linkingPhase` is nil and the run raises with nothing changed. The nil linking phase is the failure iff that is the case. Otherwise the result is exactly that of `FinishPhases`, so the run can stop only at the resources exit or at a nil file type. |
| XcodeTarget.PostbuildStepSucceeds | example/ios/use_nativescript.rb:180-187 | With postbuild on and its phase present, the postbuild move goes through and keeps the linking, prebuild and prelink phases. |
| XcodeTarget.SortSucceeds | example/ios/use_nativescript.rb:171-207 | The reordering goes through when Compile Sources, the linking phase and the shell-script phases it moves are present. |
| XcodeTarget.ArrangeSucceeds | example/ios/use_nativescript.rb:139-207 | Find-or-create then reordering goes through on every target with a Compile Sources phase and a linking phase. |
| XcodeTarget.ArrangeKeepsPhase | example/ios/use_nativescript.rb:139-207 | A successful arrangement keeps every phase that is not a shell script. |
| XcodeTarget.ConfigureSucceeds | example/ios/use_nativescript.rb:139-340 | With Compile Sources, Copy Bundle Resources and a linking phase present, the whole edit goes through iff every meta-group reference has a file type. |
| XcodeTarget.ConfigurePhases | example/ios/use_nativescript.rb:139-340 | A target without Compile Sources always ends in the exit of line 176. The exit of line 212 is never taken. A target without a linking phase fails whenever a framework reference has to be created. |
| XcodeTarget.NativeTarget.EnsureShellPhase | example/ios/use_nativescript.rb:140-145 | The phases become the find-or-create of the named shell phase. |
| XcodeTarget.NativeTarget.MoveNamedPhase | example/ios/use_nativescript.rb:189-193 | The in-place `delete_at`/`insert` gives the phases and the failure of `MoveNamed`. |
| XcodeTarget.NativeTarget.MovePostbuildPhase | example/ios/use_nativescript.rb:180-187 | The postbuild move goes to the index after Compile Sources, when postbuild is on. |
| XcodeTarget.NativeTarget.MovePrelinkPhase | example/ios/use_nativescript.rb:195-207 | The prelink move goes to the linking phase's index, or else to the postbuild phase's. |
| XcodeTarget.NativeTarget.SortBuildPhases | example/ios/use_nativescript.rb:171-213 | The in-place sort gives exactly the phases and failure of `SortPhases`. |
| XcodeTarget.NativeTarget.ArrangeBuildPhases | example/ios/use_nativescript.rb:139-213 | The three find-or-creates, then the sort. |
| XcodeTarget.NativeTarget.EnsureEmbedPhase | example/ios/use_nativescript.rb:253-269 | The phases become `WithEmbedPhase` of the old ones. |
| XcodeTarget.NativeTarget.AddBundleToResources | example/ios/use_nativescript.rb:299-313 | The phases and the failure are those of `WithBundleResource`. |
| XcodeTarget.NativeTarget.AddCompileSources | example/ios/use_nativescript.rb:331-340 | The loop over the meta group gives the phases and failure of `WithCompileSources`. |
| XcodeTarget.NativeTarget.Configure | example/ios/use_nativescript.rb:139-340 | Every phase edit in order gives the phases and the failure of `ConfigurePhases`, including the nil linking phase of line 209. |
| Bridge.PlatformFlags | src/bridge/myBridge.ts:1-2 | `isAndroid` and `isIOS` are always complements. `isIOS` holds iff `global.android` is falsy. |
| Bridge.OnNotification | src/bridge/myBridge.ts:32-51 | A `resolve` callback is invoked exactly once, with `(null, 123)`. A missing or falsy `resolve` is never invoked. A truthy non-callable `resolve` throws. A notification without `userInfo` throws at line 39 and invokes nothing. |
| Bridge.OnlyResolveMatters | src/bridge/myBridge.ts:39-45 | `name`, `payload` and `reject` are read but change nothing the block does. |
| Bridge.FalsyResolveIsIgnored | src/bridge/myBridge.ts:45-51 | With a `userInfo` whose `resolve` is not truthy, the block invokes nothing and does not throw. |
| Bridge.DeliverBelow | src/bridge/myBridge.ts:28-36 | A post runs the block at most once per observer id, and every run has the same reaction to the notification. Which ids run is stated by `DeliverCount`. |
| Bridge.DeliverCount | src/bridge/myBridge.ts:28-32 | The number of block runs is exactly the number of registered observers listening on the name. |
| Bridge.BridgeModule.PostReachesEveryListener | src/bridge/myBridge.ts:28-36 | In every reachable state, a post on "NativeScriptBridge" runs the block once per registered observer; a post on any other name runs none. |
| Bridge.BridgeModule.constructor | src/bridge/myBridge.ts:1-11 | Loading the module sets complementary flags from `global.android`, a null `unsubscribe` and no observers. |
| Bridge.BridgeModule.AtMostOneListener | src/bridge/myBridge.ts:20-58 | In every reachable state at most one observer is registered. |
| Bridge.BridgeModule.InitBridge | src/bridge/myBridge.ts:19-72 | A stored callback is returned and nothing else changes. On iOS, one new observer is registered on "NativeScriptBridge", and its teardown is stored and returned. On Android the call throws and changes nothing. The "Unimplemented platform" throw is never reached. |
| Bridge.BridgeModule.RunTeardown | src/bridge/myBridge.ts:55-57 | The teardown removes exactly its observer and leaves `unsubscribe` as it was. |
| Bridge.BridgeModule.RunTeardownAndReset | src/bridge/myBridge.ts:55-57 | The corrected teardown removes the observer and resets `unsubscribe` to null. |
| Bridge.InitTwiceOnIOS | src/bridge/myBridge.ts:19-22 | Two calls on iOS return the same callback, not null, and leave one observer. |
| Bridge.InitAfterTeardownOnIOS | src/bridge/myBridge.ts:20-57 | After the teardown, a call returns the stale callback and registers nothing: no observer is left, and a notification reaches no block. |
| Bridge.InitAfterResetOnIOS | src/bridge/myBridge.ts:20-58 | With the corrected teardown, a later call registers exactly one new observer, whose block answers the notification. |
| Bridge.InitTwiceOnAndroid | src/bridge/myBridge.ts:61-68 | On Android every call throws "Android bridge not yet implemented." and no callback is ever stored. |

## Left out

- Option checks, path computation, file copying, unzipping and directory tests of the helper. Also `puts` logging and `Xcodeproj::Project.open`/`save`. These are filesystem and library I/O.
- The frameworks-group file references (lines 217-250): finding or creating them, adding them to the linking phase, and their code-sign settings. The embed phase takes the two framework references as parameters, and whether one of them has to be created is a parameter of `ConfigurePhases`.
- The `NativeScriptUser` and `NativeScript` groups (lines 271-295, 315-330), and listing the meta directory. The bundle reference and the meta group's file references are parameters.
- FileReferences.WithBundleResource: `resources_build_phase` is modelled as the first Copy Bundle Resources phase of the target, nil when there is none, following the nil test of lines 300-303 as written. Xcodeproj's `resources_build_phase` creates and appends a missing phase, so that exit is not reached there; that appending is not modelled.
- FileReferences.WithBundleResource: a build file whose reference has no path makes `end_with?` raise at line 306. The model gives every file reference a string path, so that error is not modelled.
- The `target.name` lookup (line 137). The model starts from the target's phases.
- BuildPhases.HasName: `defined?(phase.name)` is modelled as true for shell-script and copy-files phases only. The other phase kinds carry no name in the model.
- FileReferences.AddSourceFiles: `add_file_reference(ref, true)` is modelled as skipping a reference already in the phase, by value. The library's own duplicate check, which a source comment calls faulty, is not part of this model.
- BuildSettings.BuildConfiguration.UpdateOtherLdFlags: does not model the `[]` that `||=` stores for an unset key. That value is always overwritten, because the scan never finds the flags in an empty list.
- SubarraySearch.Includes: elements are modelled as non-nil; a slot read inside the inspected array is always a value, and only the read one past the end (line 427, `i == inspectLength`) is nil. A search array whose last element is nil could falsely match that read: inspect `[x, a]`, search `[a, nil]` answers true. The only call (line 445) searches the NativeScript flags, none of which is nil.
- The unused string `ourLdFlags` (line 368).
- `NSNotificationCenter` and `NSOperationQueue`: the main-queue scheduling, delivery order, and the `object` and `source` of a notification. The notification centre is a map from observer ids to the name each listens on.
- `console.log` in myBridge.ts, and `global.native` (line 3).
- Bridge.OnNotification: a callable `resolve` is modelled as invoked without throwing. The native conversion of its arguments, which a source comment (myBridge.ts line 47) says crashes with a `TypeError`, is not modelled; the model records the invocation and its arguments.

## Findings

| source | as written | input that shows it | evidently intended | confidence | as-written member | corrected member |
|---|---|---|---|---|---|---|
| example/ios/use_nativescript.rb:426-433 | On a mismatch the buffer is cleared and the mismatching element is not retried as a new start. | inspect `[a, a, b]`, search `[a, b]`: answers false | a contiguous-subsequence test, true whenever the flags occur in order | not executed | SubarraySearch.MissesOccurrenceAfterMismatch | SubarraySearch.IncludesContiguous |
| example/ios/use_nativescript.rb:444-457 | The merge relies on that scan to recognise flags it appended earlier. | OTHER_LDFLAGS `["$(inherited)", "-ObjC"]`: the second `pod install` appends a second copy of the NativeScript flags; from the third run on it is stable | a second run leaves OTHER_LDFLAGS unchanged | not executed | BuildSettings.MergeRepeatsAfterTrailingObjC | BuildSettings.FixedMergeIsIdempotent |
| example/ios/use_nativescript.rb:189-207 | The insert index is taken before `delete_at`. A phase already before its anchor therefore lands after it. | phases `[Compile Sources, Link]`, run three times: prebuild/prelink alternate between before and after their anchors | prebuild directly before Compile Sources and prelink before linking, on every run | not executed | BuildPhases.ArrangeThirdRun | BuildPhases.MoveBeforeIdempotent |
| src/bridge/myBridge.ts:55-57 | The teardown removes the observer but leaves `unsubscribe` set. | iOS: `initBridge()`, teardown, `initBridge()`: returns the stale callback and nothing listens | a call after teardown registers a new observer | not executed | Bridge.InitAfterTeardownOnIOS | Bridge.InitAfterResetOnIOS |
