/**
 * The build phases of the app target as the Podfile helper sees them, and the pure
 * steps it applies to them: find-or-create of the NativeScript shell-script phases,
 * the `delete_at`/`insert` reordering around Compile Sources and Link Binary With
 * Libraries, the add-if-absent file references, and the compile-sources filter.
 */
module BuildPhases {
  import opened Common
  import opened RubyArrays

  /** A file reference: its path and its last known file type, which may be nil. */
  datatype FileRef = FileRef(path: string, fileType: Option<string>)

  /**
   * A build phase. Shell-script and copy-files phases answer `name` (nil when unnamed);
   * the other kinds have no `name`. `NilSlot` is the `nil` that Ruby's `insert` pads with.
   */
  datatype Phase =
    | Sources(files: seq<FileRef>)
    | Frameworks
    | Resources(files: seq<FileRef>)
    | ShellScript(name: Option<string>, script: string)
    | CopyFiles(name: Option<string>, dstPath: string, files: seq<FileRef>)
    | Other(isa: string)
    | NilSlot

  /** Why a run stops: an `exit(1)` of the helper, or a Ruby error it raises. */
  datatype Failure =
    | NoCompileSourcesPhase    // exit(1) when there is no Compile Sources phase
    | NoLinkingPhase           // exit(1) when there is no Link Binary With Libraries phase
    | NoResourcesPhase         // exit(1) when there is no Copy Bundle Resources phase
    | NilIndex                 // TypeError: `delete_at(nil)` or `insert(nil, …)`
    | NilFileType              // NoMethodError: `start_with?` called on a nil file type
    | NilLinkingPhase          // NoMethodError: `add_file_reference` called on a nil `linkingPhase`

  /** The value reached and, when the run stopped there, why. */
  datatype Outcome<T> = Outcome(value: T, failure: Option<Failure>)

  const PrebuildName: string := "NativeScript prebuild"
  const PrelinkName: string := "NativeScript prelink"
  const PostbuildName: string := "NativeScript postbuild"
  const PrebuildScript: string := "\"${SRCROOT}/internal/nativescript-pre-build\""
  const PrelinkScript: string := "\"${SRCROOT}/internal/nativescript-pre-link\""
  const PostbuildScript: string := "\"${SRCROOT}/internal/nativescript-post-build\""
  const EmbedPhaseName: string := "NativeScript Embed Frameworks"
  const NativeScriptFramework: string := "NativeScript.xcframework"
  const WidgetsFramework: string := "TNSWidgets.xcframework"
  const BundleFile: string := "nativescript-bundle.js"

  /** `instance_of? PBXSourcesBuildPhase`. */
  predicate IsSources(p: Phase) { p.Sources? }

  /** `instance_of? PBXFrameworksBuildPhase`. */
  predicate IsFrameworks(p: Phase) { p.Frameworks? }

  /** `instance_of? PBXResourcesBuildPhase`. */
  predicate IsResources(p: Phase) { p.Resources? }

  /** The test of `shell_script_build_phases.find`: a shell-script phase with this name. */
  function ShellNamed(name: string): Phase -> bool
  {
    (p: Phase) => p.ShellScript? && p.name == Some(name)
  }

  /** `defined?(phase.name) && phase.name == key`; the key is nil when the name variable was never assigned. */
  function HasName(key: Option<string>): Phase -> bool
  {
    (p: Phase) => (p.ShellScript? || p.CopyFiles?) && p.name == key
  }

  // ---------------------------------------------------------------------------
  // Find-or-create of a named shell-script phase
  // ---------------------------------------------------------------------------

  /**
   * The first shell-script phase with this name gets the script; when there is none a
   * new one is appended, as `new_shell_script_build_phase` does.
   */
  function WithShellPhase(phases: seq<Phase>, name: string, script: string): (r: seq<Phase>)
    ensures |r| == |phases| + (if FirstIndex(phases, ShellNamed(name)).None? then 1 else 0)
    ensures FirstIndex(phases, ShellNamed(name)).Some? ==> FirstIndex(r, ShellNamed(name)) == FirstIndex(phases, ShellNamed(name))
    ensures FirstIndex(phases, ShellNamed(name)).None? ==> FirstIndex(r, ShellNamed(name)) == Some(|phases|)
    ensures FirstIndex(r, ShellNamed(name)).Some?
    ensures r[FirstIndex(r, ShellNamed(name)).value] == ShellScript(Some(name), script)
    ensures forall k :: 0 <= k < |phases| && k != FirstIndex(r, ShellNamed(name)).value ==> r[k] == phases[k]
    ensures Count(r, ShellNamed(name)) == if Count(phases, ShellNamed(name)) == 0 then 1 else Count(phases, ShellNamed(name))
  {
    var p := ShellNamed(name);
    match FirstIndex(phases, p)
    case Some(i) =>
      var r := phases[i := ShellScript(Some(name), script)];
      CountUpdate(phases, i, ShellScript(Some(name), script), p);
      assert FirstIndex(r, p) == Some(i) by { FirstIndexUpdate(phases, i, ShellScript(Some(name), script), p); }
      r
    case None =>
      var r := phases + [ShellScript(Some(name), script)];
      CountAppend(phases, [ShellScript(Some(name), script)], p);
      assert Count([ShellScript(Some(name), script)], p) == 1 by {
        assert [ShellScript(Some(name), script)][1..] == [];
      }
      assert FirstIndex(r, p) == Some(|phases|) by {
        assert forall k :: 0 <= k < |phases| ==> r[k] == phases[k];
      }
      r
  }

  /** Replacing an element by one with the same test result keeps the count. */
  lemma {:induction false} CountUpdate<T>(s: seq<T>, i: nat, x: T, p: T -> bool)
    requires i < |s| && p(s[i]) == p(x)
    ensures Count(s[i := x], p) == Count(s, p)
    decreases |s|
  {
    if i > 0 {
      assert s[i := x][1..] == s[1..][i - 1 := x];
      CountUpdate(s[1..], i - 1, x, p);
    } else {
      assert s[i := x][1..] == s[1..];
    }
  }

  /** Replacing the first match by another match keeps it the first match. */
  lemma FirstIndexUpdate<T>(s: seq<T>, i: nat, x: T, p: T -> bool)
    requires FirstIndex(s, p) == Some(i) && p(x)
    ensures FirstIndex(s[i := x], p) == Some(i)
  {
    var r := s[i := x];
    assert p(r[i]);
    assert forall k :: 0 <= k < i ==> r[k] == s[k];
  }

  /** Running the find-or-create again changes nothing: the phase it made is found. */
  lemma WithShellPhaseIdempotent(phases: seq<Phase>, name: string, script: string)
    ensures WithShellPhase(WithShellPhase(phases, name, script), name, script) == WithShellPhase(phases, name, script)
  {
    var r := WithShellPhase(phases, name, script);
    var i := FirstIndex(r, ShellNamed(name)).value;
    assert r[i := ShellScript(Some(name), script)] == r;
  }

  // ---------------------------------------------------------------------------
  // Reordering, as written: the insert index is computed before `delete_at`
  // ---------------------------------------------------------------------------

  /**
   * `insert(to, delete_at(index { named key }))`: Ruby evaluates both arguments first,
   * so a nil index of the phase raises before anything changes, and a nil target index
   * raises after the phase was already taken out.
   */
  function MoveNamed(phases: seq<Phase>, key: Option<string>, to: Option<nat>): (r: Outcome<seq<Phase>>)
    ensures FirstIndex(phases, HasName(key)).None? ==> r == Outcome(phases, Some(NilIndex))
    ensures FirstIndex(phases, HasName(key)).Some? && to.None? ==>
      r.failure == Some(NilIndex) && |r.value| + 1 == |phases|
    ensures r.failure.None? ==>
      && FirstIndex(phases, HasName(key)).Some? && to.Some? && to.value < |r.value|
      && r.value[to.value] == phases[FirstIndex(phases, HasName(key)).value]
    ensures r.failure.None? ==> |r.value| == if to.value < |phases| then |phases| else to.value + 1
    ensures r.failure.None? && to.value < |phases| ==> multiset(r.value) == multiset(phases)
  {
    match FirstIndex(phases, HasName(key))
    case None => Outcome(phases, Some(NilIndex))
    case Some(from) =>
      match to
      case None => Outcome(DeleteAt(phases, from), Some(NilIndex))
      case Some(t) =>
        assert t < |phases| ==> multiset(Move(phases, from, t, NilSlot)) == multiset(phases) by {
          if t < |phases| { MoveIsPermutation(phases, from, t, NilSlot); }
        }
        Outcome(Move(phases, from, t, NilSlot), None)
  }

  /** The name the fallback looks for: `postbuildPhaseName`, which is nil when postbuild is off. */
  function PostbuildKey(doPostbuild: bool): Option<string>
  {
    if doPostbuild then Some(PostbuildName) else None
  }

  /** The reordering of lines 171-213, as written. */
  function SortPhases(phases: seq<Phase>, doPostbuild: bool): (r: Outcome<seq<Phase>>)
    ensures FirstIndex(phases, IsSources).None? ==> r == Outcome(phases, Some(NoCompileSourcesPhase))
    ensures r.failure != Some(NoLinkingPhase)
  {
    match FirstIndex(phases, IsSources)
    case None => Outcome(phases, Some(NoCompileSourcesPhase))
    case Some(c) =>
      var post := PostbuildStep(phases, c, doPostbuild);
      if post.failure.Some? then post
      else
        var pre := MoveNamed(post.value, Some(PrebuildName), Some(c));
        if pre.failure.Some? then pre
        else PrelinkStep(pre.value, doPostbuild)
  }

  /** Lines 180-187: with postbuild on, its phase goes right after Compile Sources, at index `c`. */
  function PostbuildStep(phases: seq<Phase>, c: nat, doPostbuild: bool): (r: Outcome<seq<Phase>>)
    ensures !doPostbuild ==> r == Outcome(phases, None)
    ensures doPostbuild && r.failure.None? ==>
      var to := if |phases| == 0 then 0 else c + 1;
      to < |r.value| && HasName(Some(PostbuildName))(r.value[to])
  {
    if doPostbuild then MoveNamed(phases, Some(PostbuildName), Some(if |phases| == 0 then 0 else c + 1))
    else Outcome(phases, None)
  }

  /**
   * Lines 195-213: the prelink phase goes to the index of the linking phase, or of the
   * postbuild phase when there is none; the exit for a missing anchor is never reached,
   * because the `insert` with a nil index has raised already.
   */
  function PrelinkStep(phases: seq<Phase>, doPostbuild: bool): (r: Outcome<seq<Phase>>)
    ensures r.failure != Some(NoLinkingPhase)
  {
    var link := FirstIndex(phases, IsFrameworks);
    var anchor := if link.Some? then link else FirstIndex(phases, HasName(PostbuildKey(doPostbuild)));
    var prelink := MoveNamed(phases, Some(PrelinkName), anchor);
    if prelink.failure.Some? then prelink
    else if anchor.None? then assert false; Outcome(prelink.value, Some(NoLinkingPhase))
    else prelink
  }

  /** The same phases, counted with multiplicity, apart from `nil` padding. */
  ghost predicate SamePhases(a: seq<Phase>, b: seq<Phase>)
  {
    forall p :: p != NilSlot ==> multiset(a)[p] == multiset(b)[p]
  }

  /** A successful move keeps every phase and adds at most the `nil` that pads an index past the end. */
  lemma MoveNamedKeepsPhases(phases: seq<Phase>, key: Option<string>, to: Option<nat>)
    requires MoveNamed(phases, key, to).failure.None? && to.value <= |phases|
    ensures var r := MoveNamed(phases, key, to).value;
      |phases| <= |r| <= |phases| + 1 && SamePhases(r, phases)
  {
    var from := FirstIndex(phases, HasName(key)).value;
    if to.value == |phases| {
      MovePastEndAddsFiller(phases, from, NilSlot);
    }
  }

  /** The sort keeps every phase; the only thing it can add is the `nil` of a postbuild move past the end. */
  lemma SortKeepsPhases(phases: seq<Phase>, doPostbuild: bool)
    requires SortPhases(phases, doPostbuild).failure.None?
    ensures var r := SortPhases(phases, doPostbuild).value;
      |phases| <= |r| <= |phases| + 1 && SamePhases(r, phases)
  {
    var c := FirstIndex(phases, IsSources).value;
    var post := PostbuildStep(phases, c, doPostbuild);
    assert post.failure.None?;
    if doPostbuild {
      MoveNamedKeepsPhases(phases, Some(PostbuildName), Some(c + 1));
    }
    var pre := MoveNamed(post.value, Some(PrebuildName), Some(c));
    assert pre.failure.None?;
    assert |pre.value| == |post.value| && multiset(pre.value) == multiset(post.value);
    var r := PrelinkStep(pre.value, doPostbuild);
    assert SortPhases(phases, doPostbuild) == r;
    PrelinkStepKeepsPhases(pre.value, doPostbuild);
    assert |r.value| == |post.value| && multiset(r.value) == multiset(post.value);
  }

  /** The prelink move keeps every phase and adds nothing: its target index lies inside the array. */
  lemma PrelinkStepKeepsPhases(phases: seq<Phase>, doPostbuild: bool)
    requires PrelinkStep(phases, doPostbuild).failure.None?
    ensures var r := PrelinkStep(phases, doPostbuild).value;
      |r| == |phases| && multiset(r) == multiset(phases)
  {
  }

  /**
   * Prebuild after Compile Sources (a first run, where it was appended) lands directly
   * before Compile Sources; prebuild before Compile Sources (a later run) lands
   * directly after it, because the target index was taken before the delete.
   */
  lemma PrebuildPlacement(phases: seq<Phase>, c: nat)
    requires FirstIndex(phases, IsSources) == Some(c)
    requires FirstIndex(phases, HasName(Some(PrebuildName))).Some?
    ensures var from := FirstIndex(phases, HasName(Some(PrebuildName))).value;
      var r := MoveNamed(phases, Some(PrebuildName), Some(c)).value;
      && (c < from ==> r[c] == phases[from] && r[c + 1] == phases[c])
      && (from < c ==> r[c] == phases[from] && r[c - 1] == phases[c])
  {
    var from := FirstIndex(phases, HasName(Some(PrebuildName))).value;
    assert from != c;
    if c < from {
      MoveDownLandsBefore(phases, from, c, NilSlot);
    } else {
      MoveUpLandsAfter(phases, from, c, NilSlot);
    }
  }

  /**
   * Lines 139-213: the three shell-script phases found or created, then sorted. Creating
   * them never supplies a missing Compile Sources phase, so its absence still ends in the
   * exit of line 176; the exit of line 212 is never reached.
   */
  function ArrangePhases(phases: seq<Phase>, doPostbuild: bool): (r: Outcome<seq<Phase>>)
    ensures FirstIndex(phases, IsSources).None? ==> r.failure == Some(NoCompileSourcesPhase)
    ensures r.failure != Some(NoLinkingPhase)
  {
    var withPre := WithShellPhase(phases, PrebuildName, PrebuildScript);
    var withPrelink := WithShellPhase(withPre, PrelinkName, PrelinkScript);
    var withPost := if doPostbuild then WithShellPhase(withPrelink, PostbuildName, PostbuildScript) else withPrelink;
    ShellPhaseKeepsSources(phases, PrebuildName, PrebuildScript);
    ShellPhaseKeepsSources(withPre, PrelinkName, PrelinkScript);
    ShellPhaseKeepsSources(withPrelink, PostbuildName, PostbuildScript);
    SortPhases(withPost, doPostbuild)
  }

  /** Finding or creating a shell-script phase neither creates nor removes a Compile Sources phase. */
  lemma ShellPhaseKeepsSources(phases: seq<Phase>, name: string, script: string)
    ensures FirstIndex(WithShellPhase(phases, name, script), IsSources).None? <==> FirstIndex(phases, IsSources).None?
  {
    var r := WithShellPhase(phases, name, script);
    var i := FirstIndex(r, ShellNamed(name)).value;
    assert i < |phases| ==> ShellNamed(name)(phases[i]);
    forall k | 0 <= k < |phases| && k != i
      ensures r[k] == phases[k]
    {
    }
    if FirstIndex(phases, IsSources).Some? {
      var c := FirstIndex(phases, IsSources).value;
      assert IsSources(r[c]);
    } else {
      forall k | 0 <= k < |r|
        ensures !IsSources(r[k])
      {
      }
    }
  }


  /** Without postbuild and with a linking phase, the sort is the prebuild move followed by the prelink move. */
  lemma SortWithoutPostbuild(phases: seq<Phase>, c: nat, l: nat)
    requires FirstIndex(phases, IsSources) == Some(c)
    requires MoveNamed(phases, Some(PrebuildName), Some(c)).failure.None?
    requires FirstIndex(MoveNamed(phases, Some(PrebuildName), Some(c)).value, IsFrameworks) == Some(l)
    ensures SortPhases(phases, false)
         == MoveNamed(MoveNamed(phases, Some(PrebuildName), Some(c)).value, Some(PrelinkName), Some(l))
  {
  }

  /** The three shell-script phase names are distinct. */
  lemma PhaseNamesDiffer()
    ensures PrebuildName != PrelinkName && PrebuildName != PostbuildName && PrelinkName != PostbuildName
  {
    assert PrebuildName[16] != PrelinkName[16];
    assert PrebuildName[14] != PostbuildName[14];
    assert PrelinkName[14] != PostbuildName[14];
  }

  const Prebuild: Phase := ShellScript(Some(PrebuildName), PrebuildScript)
  const Prelink: Phase := ShellScript(Some(PrelinkName), PrelinkScript)

  /** One prebuild move or prelink move of the alternation below, with the index it reads. */
  lemma MoveStep(phases: seq<Phase>, key: string, from: nat, to: nat, r: seq<Phase>)
    requires from < |phases| && to < |phases| && from != to
    requires HasName(Some(key))(phases[from])
    requires forall k :: 0 <= k < from ==> !HasName(Some(key))(phases[k])
    requires r == Move(phases, from, to, NilSlot)
    ensures MoveNamed(phases, Some(key), Some(to)) == Outcome(r, None)
  {
    FirstIndexAt(phases, HasName(Some(key)), from);
  }

  /** The two orders the reordering alternates between, for a Compile Sources phase with any files. */
  function FirstOrder(files: seq<FileRef>): seq<Phase> { [Prebuild, Sources(files), Prelink, Frameworks] }
  function SecondOrder(files: seq<FileRef>): seq<Phase> { [Sources(files), Prebuild, Frameworks, Prelink] }

  // The three runs below are split into their steps: the shell-phase lookups, the
  // prebuild move and the prelink move.

  lemma FirstRunShells(files: seq<FileRef>)
    ensures WithShellPhase([Sources(files), Frameworks], PrebuildName, PrebuildScript)
         == [Sources(files), Frameworks, Prebuild]
    ensures WithShellPhase([Sources(files), Frameworks, Prebuild], PrelinkName, PrelinkScript)
         == [Sources(files), Frameworks, Prebuild, Prelink]
  {
    PhaseNamesDiffer();
    assert FirstIndex([Sources(files), Frameworks], ShellNamed(PrebuildName)) == None;
    assert FirstIndex([Sources(files), Frameworks, Prebuild], ShellNamed(PrelinkName)) == None;
  }

  lemma FirstRunPrebuild(files: seq<FileRef>)
    ensures FirstIndex([Sources(files), Frameworks, Prebuild, Prelink], IsSources) == Some(0)
    ensures MoveNamed([Sources(files), Frameworks, Prebuild, Prelink], Some(PrebuildName), Some(0))
         == Outcome([Prebuild, Sources(files), Frameworks, Prelink], None)
  {
    PhaseNamesDiffer();
    var s := [Sources(files), Frameworks, Prebuild, Prelink];
    FirstIndexAt(s, IsSources, 0);
    assert Move(s, 2, 0, NilSlot) == [Prebuild, Sources(files), Frameworks, Prelink];
    MoveStep(s, PrebuildName, 2, 0, [Prebuild, Sources(files), Frameworks, Prelink]);
  }

  lemma FirstRunPrelink(files: seq<FileRef>)
    ensures FirstIndex([Prebuild, Sources(files), Frameworks, Prelink], IsFrameworks) == Some(2)
    ensures MoveNamed([Prebuild, Sources(files), Frameworks, Prelink], Some(PrelinkName), Some(2))
         == Outcome(FirstOrder(files), None)
  {
    PhaseNamesDiffer();
    var s := [Prebuild, Sources(files), Frameworks, Prelink];
    FirstIndexAt(s, IsFrameworks, 2);
    assert Move(s, 3, 2, NilSlot) == FirstOrder(files);
    MoveStep(s, PrelinkName, 3, 2, FirstOrder(files));
  }

  /** The first run on a target with just Compile Sources and Link Binary With Libraries. */
  lemma ArrangeFirstRun(files: seq<FileRef>)
    ensures ArrangePhases([Sources(files), Frameworks], false) == Outcome(FirstOrder(files), None)
  {
    FirstRunShells(files);
    FirstRunPrebuild(files);
    FirstRunPrelink(files);
    SortWithoutPostbuild([Sources(files), Frameworks, Prebuild, Prelink], 0, 2);
  }

  lemma SecondRunShells(files: seq<FileRef>)
    ensures WithShellPhase(FirstOrder(files), PrebuildName, PrebuildScript) == FirstOrder(files)
    ensures WithShellPhase(FirstOrder(files), PrelinkName, PrelinkScript) == FirstOrder(files)
  {
    PhaseNamesDiffer();
    FirstIndexAt(FirstOrder(files), ShellNamed(PrebuildName), 0);
    FirstIndexAt(FirstOrder(files), ShellNamed(PrelinkName), 2);
  }

  lemma SecondRunPrebuild(files: seq<FileRef>)
    ensures FirstIndex(FirstOrder(files), IsSources) == Some(1)
    ensures MoveNamed(FirstOrder(files), Some(PrebuildName), Some(1))
         == Outcome([Sources(files), Prebuild, Prelink, Frameworks], None)
  {
    PhaseNamesDiffer();
    var s := FirstOrder(files);
    FirstIndexAt(s, IsSources, 1);
    assert Move(s, 0, 1, NilSlot) == [Sources(files), Prebuild, Prelink, Frameworks];
    MoveStep(s, PrebuildName, 0, 1, [Sources(files), Prebuild, Prelink, Frameworks]);
  }

  lemma SecondRunPrelink(files: seq<FileRef>)
    ensures FirstIndex([Sources(files), Prebuild, Prelink, Frameworks], IsFrameworks) == Some(3)
    ensures MoveNamed([Sources(files), Prebuild, Prelink, Frameworks], Some(PrelinkName), Some(3))
         == Outcome(SecondOrder(files), None)
  {
    PhaseNamesDiffer();
    var s := [Sources(files), Prebuild, Prelink, Frameworks];
    FirstIndexAt(s, IsFrameworks, 3);
    assert Move(s, 2, 3, NilSlot) == SecondOrder(files);
    MoveStep(s, PrelinkName, 2, 3, SecondOrder(files));
  }

  /** Re-running on the first order yields the second: prebuild and prelink each end up after their anchor. */
  lemma ArrangeSecondRun(files: seq<FileRef>)
    ensures ArrangePhases(FirstOrder(files), false) == Outcome(SecondOrder(files), None)
  {
    SecondRunShells(files);
    SecondRunPrebuild(files);
    SecondRunPrelink(files);
    SortWithoutPostbuild(FirstOrder(files), 1, 3);
  }

  lemma ThirdRunShells(files: seq<FileRef>)
    ensures WithShellPhase(SecondOrder(files), PrebuildName, PrebuildScript) == SecondOrder(files)
    ensures WithShellPhase(SecondOrder(files), PrelinkName, PrelinkScript) == SecondOrder(files)
  {
    PhaseNamesDiffer();
    FirstIndexAt(SecondOrder(files), ShellNamed(PrebuildName), 1);
    FirstIndexAt(SecondOrder(files), ShellNamed(PrelinkName), 3);
  }

  lemma ThirdRunPrebuild(files: seq<FileRef>)
    ensures FirstIndex(SecondOrder(files), IsSources) == Some(0)
    ensures MoveNamed(SecondOrder(files), Some(PrebuildName), Some(0))
         == Outcome([Prebuild, Sources(files), Frameworks, Prelink], None)
  {
    PhaseNamesDiffer();
    var s := SecondOrder(files);
    FirstIndexAt(s, IsSources, 0);
    assert Move(s, 1, 0, NilSlot) == [Prebuild, Sources(files), Frameworks, Prelink];
    MoveStep(s, PrebuildName, 1, 0, [Prebuild, Sources(files), Frameworks, Prelink]);
  }

  /** Re-running on the second order yields the first again: the reordering never settles. */
  lemma ArrangeThirdRun(files: seq<FileRef>)
    ensures ArrangePhases(SecondOrder(files), false) == Outcome(FirstOrder(files), None)
  {
    ThirdRunShells(files);
    ThirdRunPrebuild(files);
    FirstRunPrelink(files);
    SortWithoutPostbuild(SecondOrder(files), 0, 2);
  }

  // ---------------------------------------------------------------------------
  // Reordering as evidently intended: the anchor is looked up after the delete
  // ---------------------------------------------------------------------------

  /**
   * Take the named phase out, then find the anchor in what is left and insert the
   * phase directly before it. Missing phase or anchor is the same error as before.
   */
  function MoveBefore(phases: seq<Phase>, key: string, anchor: Phase -> bool): (r: Outcome<seq<Phase>>)
    ensures r.failure.None? ==> |r.value| == |phases| && multiset(r.value) == multiset(phases)
  {
    match FirstIndex(phases, HasName(Some(key)))
    case None => Outcome(phases, Some(NilIndex))
    case Some(from) =>
      var rest := DeleteAt(phases, from);
      match FirstIndex(rest, anchor)
      case None => Outcome(rest, Some(NilIndex))
      case Some(a) =>
        assert Insert(rest, a, phases[from], NilSlot) == Move(phases, from, a, NilSlot);
        MoveIsPermutation(phases, from, a, NilSlot);
        Outcome(Insert(rest, a, phases[from], NilSlot), None)
  }

  /** Taking out one match lowers the count by one. */
  lemma CountDeleteAt<T>(s: seq<T>, i: nat, p: T -> bool)
    requires i < |s| && p(s[i])
    ensures Count(DeleteAt(s, i), p) == Count(s, p) - 1
  {
    var before := s[..i];
    var after := s[i + 1..];
    assert s[i..] == [s[i]] + after;
    assert s == before + s[i..];
    assert DeleteAt(s, i) == before + after;
    CountAppend(before, [s[i]] + after, p);
    CountAppend([s[i]], after, p);
    assert [s[i]][1..] == [];
    CountAppend(before, after, p);
  }

  /**
   * The corrected move puts the phase directly before the first anchor, whatever
   * side it started on; the anchor itself is then found one place further on.
   */
  lemma MoveBeforePlacement(phases: seq<Phase>, key: string, anchor: Phase -> bool)
    requires MoveBefore(phases, key, anchor).failure.None?
    requires !anchor(phases[FirstIndex(phases, HasName(Some(key))).value])
    ensures var r := MoveBefore(phases, key, anchor).value;
      && FirstIndex(r, anchor).Some? && 0 < FirstIndex(r, anchor).value
      && r[FirstIndex(r, anchor).value - 1] == phases[FirstIndex(phases, HasName(Some(key))).value]
  {
    var from := FirstIndex(phases, HasName(Some(key))).value;
    var rest := DeleteAt(phases, from);
    var a := FirstIndex(rest, anchor).value;
    var r := Insert(rest, a, phases[from], NilSlot);
    FirstIndexAt(r, anchor, a + 1);
  }

  /**
   * When exactly one phase carries the name and it is not itself an anchor, running
   * the corrected move a second time changes nothing.
   */
  lemma MoveBeforeIdempotent(phases: seq<Phase>, key: string, anchor: Phase -> bool)
    requires Count(phases, HasName(Some(key))) == 1
    requires forall k :: 0 <= k < |phases| && HasName(Some(key))(phases[k]) ==> !anchor(phases[k])
    requires MoveBefore(phases, key, anchor).failure.None?
    ensures MoveBefore(MoveBefore(phases, key, anchor).value, key, anchor) == MoveBefore(phases, key, anchor)
  {
    var named := HasName(Some(key));
    var from := FirstIndex(phases, named).value;
    var rest := DeleteAt(phases, from);
    var a := FirstIndex(rest, anchor).value;
    var x := phases[from];
    var r := Insert(rest, a, x, NilSlot);
    CountDeleteAt(phases, from, named);
    assert forall k :: 0 <= k < |rest| ==> !named(rest[k]);
    FirstIndexAt(r, named, a);
    DeleteInserted(rest, a, x, NilSlot);
  }

  /** With the corrected move, prebuild stays put once it sits directly before Compile Sources. */
  lemma FixedPrebuildMoveSettles(files: seq<FileRef>)
    ensures MoveBefore(FirstOrder(files), PrebuildName, IsSources) == Outcome(FirstOrder(files), None)
  {
    PhaseNamesDiffer();
    var s := FirstOrder(files);
    FirstIndexAt(s, HasName(Some(PrebuildName)), 0);
    var rest := DeleteAt(s, 0);
    assert rest == [Sources(files), Prelink, Frameworks];
    FirstIndexAt(rest, IsSources, 0);
    assert Insert(rest, 0, Prebuild, NilSlot) == s;
  }
}
