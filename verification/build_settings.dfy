/**
 * The per-configuration build-settings update of `use_nativescript`: fixed values for
 * header search paths, the bridging header, the linker and two feature switches, and
 * the merge that appends the NativeScript linker flags to OTHER_LDFLAGS unless the
 * scan of `array_includes_array` already finds them there.
 */
module BuildSettings {
  import opened Common
  import opened SubarraySearch

  const Inherited: string := "$(inherited)"

  /** The NativeScript linker flags, in the order whose presence marks a configured project. */
  const NativeScriptLdFlags: seq<string> := [
    "-ObjC",
    "-sectcreate",
    "__DATA",
    "__TNSMetadata",
    "\"$(CONFIGURATION_BUILD_DIR)/metadata-$(CURRENT_ARCH).bin\"",
    "-framework",
    "NativeScript",
    "-F\"$(SRCROOT)/internal\"",
    "-licucore",
    "-lz",
    "-lc++",
    "-framework",
    "Foundation",
    "-framework",
    "UIKit",
    "-framework",
    "CoreGraphics",
    "-framework",
    "MobileCoreServices",
    "-framework",
    "Security"
  ]

  const OtherLdFlagsKey: string := "OTHER_LDFLAGS"
  const HeaderSearchPathsKey: string := "HEADER_SEARCH_PATHS"
  const BridgingHeaderKey: string := "SWIFT_OBJC_BRIDGING_HEADER"
  const LdKey: string := "LD"
  const LdPlusPlusKey: string := "LDPLUSPLUS"
  const EnableBitcodeKey: string := "ENABLE_BITCODE"
  const ClangEnableModulesKey: string := "CLANG_ENABLE_MODULES"

  const HeaderSearchPaths: string := "$(inherited) \"$(SRCROOT)/NativeScript\""
  const BridgingHeader: string := "\"$(SRCROOT)/NativeScript/App-Bridging-Header.h\""
  const NativeScriptLinker: string := "$SRCROOT/internal/nsld.sh"

  /** A build-setting value as the project file yields it: a single string or a list of strings. */
  datatype Setting = Text(text: string) | List(items: seq<string>)

  /** What `array_includes_array` indexes: a String yields its characters, one per index. */
  function Inspected(s: Setting): (r: seq<string>)
    ensures s.List? ==> r == s.items
    ensures s.Text? ==> |r| == |s.text| && forall i :: 0 <= i < |r| ==> r[i] == [s.text[i]]
  {
    match s
    case Text(t) => seq(|t|, i requires 0 <= i < |t| => [t[i]])
    case List(xs) => xs
  }

  /**
   * What the splat `*existing` spreads into the new list: a list spreads the elements
   * the scan inspected, while a String stays one element, unlike in the scan.
   */
  function Spread(s: Setting): (r: seq<string>)
    ensures s.List? ==> r == Inspected(s)
    ensures s.Text? ==> |r| == 1 && r[0] == s.text
  {
    match s
    case Text(t) => [t]
    case List(xs) => xs
  }

  /** `existing.include? "$(inherited)"`: a substring test on a String, membership on a list. */
  function HasInherited(s: Setting): (r: bool)
    ensures s.Text? ==> (r <==> Occurs(Inherited, s.text))
    ensures s.List? ==> (r <==> exists k :: 0 <= k < |s.items| && s.items[k] == Inherited)
  {
    match s
    case Text(t) => IncludesContiguous(t, Inherited)
    case List(xs) => Inherited in xs
  }

  /** The value `existing_OTHER_LDFLAGS`: the current setting, or `[]` when it is unset. */
  function ExistingLdFlags(current: Option<Setting>): (r: Setting)
    ensures current.Some? ==> r == current.value
    ensures current.None? ==> r == List([]) && !Includes(Inspected(r), NativeScriptLdFlags)
  {
    if current.Some? then current.value else List([])
  }

  /**
   * The new OTHER_LDFLAGS value. When the scan finds the NativeScript flags the
   * existing value is kept; otherwise the result lists the existing value, then
   * `$(inherited)` if it was missing, then the NativeScript flags.
   */
  function MergeOtherLdFlags(current: Option<Setting>): (r: Setting)
    ensures var existing := ExistingLdFlags(current);
      if Includes(Inspected(existing), NativeScriptLdFlags) then r == existing
      else
        && r.List?
        && |Spread(existing)| + |NativeScriptLdFlags| <= |r.items| <= |Spread(existing)| + 1 + |NativeScriptLdFlags|
        && r.items[..|Spread(existing)|] == Spread(existing)
        && r.items[|r.items| - |NativeScriptLdFlags|..] == NativeScriptLdFlags
        && (existing.List? ==> Inherited in r.items)
    ensures var existing := ExistingLdFlags(current);
      !Includes(Inspected(existing), NativeScriptLdFlags) ==>
        r == List(Spread(existing) + (if HasInherited(existing) then [] else [Inherited]) + NativeScriptLdFlags)
    ensures r.List? ==> Occurs(NativeScriptLdFlags, r.items)
  {
    var existing := ExistingLdFlags(current);
    if Includes(Inspected(existing), NativeScriptLdFlags) then existing
    else
      var prefix := Spread(existing) + (if HasInherited(existing) then [] else [Inherited]);
      var r := List(prefix + NativeScriptLdFlags);
      OccursAfterPrefix(prefix, NativeScriptLdFlags);
      assert r.items[..|Spread(existing)|] == Spread(existing);
      r
  }

  /** A single-string setting never matches: no NativeScript flag is one character long. */
  lemma TextNeverIncludesFlags(t: string)
    ensures !Includes(Inspected(Text(t)), NativeScriptLdFlags)
  {
    var a := Inspected(Text(t));
    if |NativeScriptLdFlags| <= |a| {
      forall k | 0 <= k < |Slots(a)|
        ensures Slots(a)[k] != Some(NativeScriptLdFlags[0])
      {
        if k < |a| {
          assert |a[k]| == 1;
        }
      }
      RunStaysEmpty(NativeScriptLdFlags, Slots(a));
    }
  }

  /** The first NativeScript flag, `-ObjC`, occurs nowhere else among them. */
  lemma FlagsHeadIsUnique()
    ensures HeadIsUnique(NativeScriptLdFlags)
  {
  }

  /** The list the merge appends the NativeScript flags to: the existing flags and `$(inherited)` if missing. */
  function MergePrefix(xs: seq<string>): seq<string>
  {
    xs + (if Inherited in xs then [] else [Inherited])
  }

  /** The merge applied to a list-valued setting. */
  function MergeList(xs: seq<string>): seq<string>
  {
    Spread(MergeOtherLdFlags(Some(List(xs))))
  }

  /**
   * Re-running the merge on its own output changes nothing exactly when the first run
   * found the flags, or when the scan's buffer is empty (or a match complete) at the
   * point where the appended flags begin.
   */
  lemma MergeListStableIff(xs: seq<string>)
    ensures MergeList(MergeList(xs)) == MergeList(xs)
        <==> Includes(xs, NativeScriptLdFlags)
             || StateAfter(NativeScriptLdFlags, MergePrefix(xs)) in {0, |NativeScriptLdFlags|}
  {
    if !Includes(xs, NativeScriptLdFlags) {
      var prefix := MergePrefix(xs);
      assert MergeList(xs) == prefix + NativeScriptLdFlags;
      FlagsHeadIsUnique();
      IncludesAppendedCopy(prefix, NativeScriptLdFlags);
      if !Includes(prefix + NativeScriptLdFlags, NativeScriptLdFlags) {
        assert |MergeList(MergeList(xs))| > |MergeList(xs)|;
      }
    }
  }

  /** Feeding one more flag to the matcher: the step of the scan loop. */
  lemma StateAfterSnoc(search: seq<string>, prefix: seq<string>, x: string)
    requires |search| > 0
    ensures var j := StateAfter(search, prefix);
      StateAfter(search, prefix + [x]) == if j == |search| then j else Step(search, j, Some(x))
  {
    LiftAppend(prefix, [x]);
    assert Lift([x]) == [Some(x)];
    RunAppend(search, 0, Lift(prefix), [Some(x)]);
    assert [Some(x)][1..] == [];
  }

  /** When the flag just before the appended ones is not a NativeScript flag, the matcher is reset there. */
  lemma StateAfterForeignLast(search: seq<string>, prefix: seq<string>)
    requires |search| > 0 && |prefix| > 0 && prefix[|prefix| - 1] !in search
    ensures StateAfter(search, prefix) in {0, |search|}
  {
    var init := prefix[..|prefix| - 1];
    var last := prefix[|prefix| - 1];
    assert prefix == init + [last];
    StateAfterSnoc(search, init, last);
  }

  /**
   * Re-running the merge is a no-op whenever `$(inherited)` had to be added, or the
   * last existing flag is not one of the NativeScript flags.
   */
  lemma MergeListStableWhenLastFlagForeign(xs: seq<string>)
    requires Inherited !in xs || (|xs| > 0 && xs[|xs| - 1] !in NativeScriptLdFlags)
    ensures MergeList(MergeList(xs)) == MergeList(xs)
  {
    var prefix := MergePrefix(xs);
    assert prefix[|prefix| - 1] !in NativeScriptLdFlags;
    StateAfterForeignLast(NativeScriptLdFlags, prefix);
    MergeListStableIff(xs);
  }

  /**
   * The flags of a freshly generated React Native project, `$(inherited) -ObjC -lc++`,
   * are merged once: the second run finds the flags it appended.
   */
  lemma MergeOfTemplateFlagsIsStable()
    ensures MergeList(MergeList([Inherited, "-ObjC", "-lc++"])) == MergeList([Inherited, "-ObjC", "-lc++"])
  {
    var xs := [Inherited, "-ObjC", "-lc++"];
    assert MergePrefix(xs) == xs;
    assert StateAfter(NativeScriptLdFlags, []) == 0;
    StateAfterSnoc(NativeScriptLdFlags, [], Inherited);
    assert [] + [Inherited] == [Inherited];
    StateAfterSnoc(NativeScriptLdFlags, [Inherited], "-ObjC");
    assert [Inherited] + ["-ObjC"] == [Inherited, "-ObjC"];
    StateAfterSnoc(NativeScriptLdFlags, [Inherited, "-ObjC"], "-lc++");
    assert [Inherited, "-ObjC"] + ["-lc++"] == xs;
    assert StateAfter(NativeScriptLdFlags, xs) == 0;
    MergeListStableIff(xs);
  }

  /**
   * Flags ending in `-ObjC` after `$(inherited)` are merged a second time: the scan
   * enters the appended flags with `-ObjC` already in its buffer and clears it at the
   * appended `-ObjC` without retrying it, so the second run appends a second copy.
   */
  lemma MergeRepeatsAfterTrailingObjC()
    ensures MergeList([Inherited, "-ObjC"]) == [Inherited, "-ObjC"] + NativeScriptLdFlags
    ensures MergeList(MergeList([Inherited, "-ObjC"]))
         == [Inherited, "-ObjC"] + NativeScriptLdFlags + NativeScriptLdFlags
  {
    var xs := [Inherited, "-ObjC"];
    assert MergePrefix(xs) == xs;
    StateAfterInheritedObjC();
    FlagsHeadIsUnique();
    IncludesAppendedCopy(xs, NativeScriptLdFlags);
    assert Inherited in xs + NativeScriptLdFlags;
  }

  /** After `$(inherited) -ObjC` the scan holds `-ObjC`, the first flag, in its buffer. */
  lemma StateAfterInheritedObjC()
    ensures StateAfter(NativeScriptLdFlags, [Inherited, "-ObjC"]) == 1
  {
    StateAfterSnoc(NativeScriptLdFlags, [], Inherited);
    assert [] + [Inherited] == [Inherited];
    StateAfterSnoc(NativeScriptLdFlags, [Inherited], "-ObjC");
    assert [Inherited] + ["-ObjC"] == [Inherited, "-ObjC"];
  }

  /**
   * From the third run on, those flags are left alone: the scan leaves the first copy
   * with an empty buffer, because `-ObjC` occurs only at the head of the flags, and so
   * it finds the second copy. OTHER_LDFLAGS settles holding the flags twice.
   */
  lemma MergeSettlesAfterSecondRun()
    ensures var twice := MergeList(MergeList([Inherited, "-ObjC"]));
      MergeList(twice) == twice
  {
    var xs := [Inherited, "-ObjC"];
    MergeRepeatsAfterTrailingObjC();
    StateAfterInheritedObjC();
    FlagsHeadIsUnique();
    CopyAfterOneEmpties(xs, NativeScriptLdFlags);
    var once := xs + NativeScriptLdFlags;
    assert MergePrefix(once) == once;
    MergeListStableIff(once);
  }

  /** What the merge puts before the flags for a single-string setting: the string, then `$(inherited)` if missing. */
  function TextPrefix(t: string): seq<string>
  {
    [t] + (if HasInherited(Text(t)) then [] else [Inherited])
  }

  /** The scan leaves that prefix with an empty buffer: neither `$(inherited)` nor a string containing it is `-ObjC`. */
  lemma StateAfterTextPrefix(t: string)
    ensures StateAfter(NativeScriptLdFlags, TextPrefix(t)) in {0, |NativeScriptLdFlags|}
  {
    var prefix := TextPrefix(t);
    if HasInherited(Text(t)) {
      var p: nat :| OccursAt(Inherited, t, p);
      assert t != NativeScriptLdFlags[0];
      StateAfterSnoc(NativeScriptLdFlags, [], t);
      assert [] + [t] == prefix;
    } else {
      StateAfterForeignLast(NativeScriptLdFlags, prefix);
    }
  }

  /**
   * A single-string OTHER_LDFLAGS is merged once and then left alone: the first run
   * turns it into a list ending in the flags, and the second run finds them there.
   */
  lemma MergeTextIsStable(t: string)
    ensures MergeOtherLdFlags(Some(MergeOtherLdFlags(Some(Text(t))))) == MergeOtherLdFlags(Some(Text(t)))
  {
    TextNeverIncludesFlags(t);
    var r := MergeOtherLdFlags(Some(Text(t)));
    assert r.items == TextPrefix(t) + NativeScriptLdFlags;
    StateAfterTextPrefix(t);
    FlagsHeadIsUnique();
    IncludesAppendedCopy(TextPrefix(t), NativeScriptLdFlags);
    assert Inspected(r) == r.items;
  }

  /** The merge with the contiguous-subsequence test the flag check evidently intends. */
  function MergeOtherLdFlagsFixed(current: Option<Setting>): (r: Setting)
    ensures var existing := ExistingLdFlags(current);
      if IncludesContiguous(Inspected(existing), NativeScriptLdFlags) then r == existing
      else r.List? && |Spread(existing)| <= |r.items| && r.items[..|Spread(existing)|] == Spread(existing)
    ensures r.List? ==> Occurs(NativeScriptLdFlags, r.items)
  {
    var existing := ExistingLdFlags(current);
    if IncludesContiguous(Inspected(existing), NativeScriptLdFlags) then existing
    else
      var prefix := Spread(existing) + (if HasInherited(existing) then [] else [Inherited]);
      var r := List(prefix + NativeScriptLdFlags);
      OccursAfterPrefix(prefix, NativeScriptLdFlags);
      assert r.items[..|Spread(existing)|] == Spread(existing);
      r
  }

  /** With the intended test, re-running the merge on its own output never changes it. */
  lemma FixedMergeIsIdempotent(current: Option<Setting>)
    ensures MergeOtherLdFlagsFixed(Some(MergeOtherLdFlagsFixed(current))) == MergeOtherLdFlagsFixed(current)
  {
    var r := MergeOtherLdFlagsFixed(current);
    if r.List? {
      assert Inspected(r) == r.items;
    } else {
      assert IncludesContiguous(Inspected(ExistingLdFlags(current)), NativeScriptLdFlags);
    }
  }

  const NativeScriptKeys: set<string> :=
    {HeaderSearchPathsKey, BridgingHeaderKey, OtherLdFlagsKey, LdKey, LdPlusPlusKey,
     EnableBitcodeKey, ClangEnableModulesKey}

  /** The seven keys the update writes differ in length, so they are pairwise different. */
  lemma KeyLengths()
    ensures |HeaderSearchPathsKey| == 19 && |BridgingHeaderKey| == 26 && |OtherLdFlagsKey| == 13
    ensures |LdKey| == 2 && |LdPlusPlusKey| == 10 && |EnableBitcodeKey| == 14 && |ClangEnableModulesKey| == 20
  {
  }

  /** `config.build_settings["OTHER_LDFLAGS"]`: nil when the key is unset. */
  function CurrentLdFlags(settings: map<string, Setting>): Option<Setting>
  {
    if OtherLdFlagsKey in settings then Some(settings[OtherLdFlagsKey]) else None
  }

  /**
   * The seven assignments of the loop body, in their order, with `ldFlags` as the value
   * OTHER_LDFLAGS ends up with: every other key keeps its value.
   */
  function WithNativeScriptValues(settings: map<string, Setting>, ldFlags: Setting): (r: map<string, Setting>)
    ensures r.Keys == settings.Keys + NativeScriptKeys
    ensures forall k :: k in settings && k !in NativeScriptKeys ==> r[k] == settings[k]
    ensures r[HeaderSearchPathsKey] == Text(HeaderSearchPaths)
    ensures r[BridgingHeaderKey] == Text(BridgingHeader)
    ensures r[OtherLdFlagsKey] == ldFlags
    ensures r[LdKey] == Text(NativeScriptLinker) && r[LdPlusPlusKey] == Text(NativeScriptLinker)
    ensures r[EnableBitcodeKey] == Text("NO") && r[ClangEnableModulesKey] == Text("NO")
  {
    KeyLengths();
    settings[HeaderSearchPathsKey := Text(HeaderSearchPaths)]
            [BridgingHeaderKey := Text(BridgingHeader)]
            [OtherLdFlagsKey := ldFlags]
            [LdKey := Text(NativeScriptLinker)]
            [LdPlusPlusKey := Text(NativeScriptLinker)]
            [EnableBitcodeKey := Text("NO")]
            [ClangEnableModulesKey := Text("NO")]
  }

  /**
   * The build settings of one configuration after the NativeScript update: the seven
   * keys are set, every other key is kept, and an unset or list-valued OTHER_LDFLAGS
   * ends up as a list holding the NativeScript flags in order.
   */
  function NativeScriptSettings(settings: map<string, Setting>): (r: map<string, Setting>)
    ensures r.Keys == settings.Keys + NativeScriptKeys
    ensures forall k :: k in settings && k !in NativeScriptKeys ==> r[k] == settings[k]
    ensures OtherLdFlagsKey !in settings || settings[OtherLdFlagsKey].List? ==>
      r[OtherLdFlagsKey].List? && Occurs(NativeScriptLdFlags, r[OtherLdFlagsKey].items)
  {
    WithNativeScriptValues(settings, MergeOtherLdFlags(CurrentLdFlags(settings)))
  }

  /** Settings that already hold every value the update writes are left as they are. */
  lemma WithValuesFixedPoint(m: map<string, Setting>)
    requires NativeScriptKeys <= m.Keys
    requires m[HeaderSearchPathsKey] == Text(HeaderSearchPaths) && m[BridgingHeaderKey] == Text(BridgingHeader)
    requires m[LdKey] == Text(NativeScriptLinker) && m[LdPlusPlusKey] == Text(NativeScriptLinker)
    requires m[EnableBitcodeKey] == Text("NO") && m[ClangEnableModulesKey] == Text("NO")
    ensures WithNativeScriptValues(m, m[OtherLdFlagsKey]) == m
  {
    var r := WithNativeScriptValues(m, m[OtherLdFlagsKey]);
    assert r.Keys == m.Keys;
    forall k | k in r
      ensures r[k] == m[k]
    {
      if k !in NativeScriptKeys {
      } else if k == OtherLdFlagsKey {
      } else if k == HeaderSearchPathsKey {
      } else if k == BridgingHeaderKey {
      } else if k == LdKey {
      } else if k == LdPlusPlusKey {
      } else if k == EnableBitcodeKey {
      } else {
        assert k == ClangEnableModulesKey;
      }
    }
  }

  /** Re-running the settings update changes nothing exactly when re-running the flag merge changes nothing. */
  lemma SettingsStableIffMergeStable(settings: map<string, Setting>)
    ensures var once := NativeScriptSettings(settings);
      NativeScriptSettings(once) == once
      <==> MergeOtherLdFlags(Some(once[OtherLdFlagsKey])) == once[OtherLdFlagsKey]
  {
    var once := NativeScriptSettings(settings);
    assert CurrentLdFlags(once) == Some(once[OtherLdFlagsKey]);
    if MergeOtherLdFlags(Some(once[OtherLdFlagsKey])) == once[OtherLdFlagsKey] {
      WithValuesFixedPoint(once);
    } else {
      var twice := NativeScriptSettings(once);
      assert twice[OtherLdFlagsKey] != once[OtherLdFlagsKey];
    }
  }

  /** One build configuration, whose settings the Podfile helper edits key by key. */
  class BuildConfiguration {
    var buildSettings: map<string, Setting>

    constructor (settings: map<string, Setting>)
      ensures buildSettings == settings
    {
      buildSettings := settings;
    }

    /**
     * `existing_OTHER_LDFLAGS = ... ||= []`, the scan, and the new list when the scan
     * fails. The `[]` that `||=` stores for an unset key is always replaced: the scan
     * never finds the flags in an empty list.
     */
    method UpdateOtherLdFlags()
      modifies this
      ensures buildSettings == old(buildSettings)[OtherLdFlagsKey := MergeOtherLdFlags(CurrentLdFlags(old(buildSettings)))]
    {
      var existing := if OtherLdFlagsKey in buildSettings then buildSettings[OtherLdFlagsKey] else List([]);
      var found := ArrayIncludesArray(Inspected(existing), NativeScriptLdFlags);
      if !found {
        var inherited := if HasInherited(existing) then [] else [Inherited];
        buildSettings := buildSettings[OtherLdFlagsKey := List(Spread(existing) + inherited + NativeScriptLdFlags)];
      } else {
        assert buildSettings == buildSettings[OtherLdFlagsKey := existing];
      }
    }

    /** The body of the loop over `build_configurations`, for this configuration. */
    method ApplyNativeScriptSettings()
      modifies this
      ensures buildSettings == NativeScriptSettings(old(buildSettings))
    {
      buildSettings := buildSettings[HeaderSearchPathsKey := Text(HeaderSearchPaths)];
      buildSettings := buildSettings[BridgingHeaderKey := Text(BridgingHeader)];
      KeyLengths();
      assert CurrentLdFlags(buildSettings) == CurrentLdFlags(old(buildSettings));
      UpdateOtherLdFlags();
      buildSettings := buildSettings[LdKey := Text(NativeScriptLinker)];
      buildSettings := buildSettings[LdPlusPlusKey := Text(NativeScriptLinker)];
      buildSettings := buildSettings[EnableBitcodeKey := Text("NO")];
      buildSettings := buildSettings[ClangEnableModulesKey := Text("NO")];
    }
  }

  /**
   * The loop over `build_configurations` (lines 342-469): every configuration of the
   * target gets the update once. The configurations are distinct objects.
   */
  method ApplyToConfigurations(configs: seq<BuildConfiguration>)
    requires forall i, j :: 0 <= i < j < |configs| ==> configs[i] != configs[j]
    modifies set c | c in configs
    ensures forall i :: 0 <= i < |configs| ==>
      configs[i].buildSettings == NativeScriptSettings(old(configs[i].buildSettings))
  {
    for n := 0 to |configs|
      invariant forall i :: 0 <= i < n ==>
        configs[i].buildSettings == NativeScriptSettings(old(configs[i].buildSettings))
      invariant forall i :: n <= i < |configs| ==> configs[i].buildSettings == old(configs[i].buildSettings)
    {
      label before:
      configs[n].ApplyNativeScriptSettings();
      assert forall i :: 0 <= i < |configs| && i != n ==>
        configs[i].buildSettings == old@before(configs[i].buildSettings);
    }
  }
}
