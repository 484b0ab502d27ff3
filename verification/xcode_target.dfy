/**
 * The app target of the Xcode project, whose `build_phases` array the Podfile helper
 * edits in place, step by step, in the order of its lines 139-340.
 */
module XcodeTarget {
  import opened Common
  import opened RubyArrays
  import opened BuildPhases
  import opened FileReferences

  /** A successful sort still has a Compile Sources phase: moves never take one out. */
  lemma SortKeepsSources(phases: seq<Phase>, doPostbuild: bool)
    requires SortPhases(phases, doPostbuild).failure.None?
    ensures FirstIndex(SortPhases(phases, doPostbuild).value, IsSources).Some?
  {
    var c := FirstIndex(phases, IsSources).value;
    var r := SortPhases(phases, doPostbuild).value;
    SortKeepsPhases(phases, doPostbuild);
    assert phases[c] in multiset(phases);
    assert phases[c] in multiset(r);
    var k :| 0 <= k < |r| && r[k] == phases[c];
    assert IsSources(r[k]);
  }

  /** A successful arrangement still has a Compile Sources phase. */
  lemma ArrangeKeepsSources(phases: seq<Phase>, doPostbuild: bool)
    requires ArrangePhases(phases, doPostbuild).failure.None?
    ensures FirstIndex(ArrangePhases(phases, doPostbuild).value, IsSources).Some?
  {
    var withPre := WithShellPhase(phases, PrebuildName, PrebuildScript);
    var withPrelink := WithShellPhase(withPre, PrelinkName, PrelinkScript);
    var withPost := if doPostbuild then WithShellPhase(withPrelink, PostbuildName, PostbuildScript) else withPrelink;
    SortKeepsSources(withPost, doPostbuild);
  }

  /** Find-or-create of a shell-script phase neither makes nor removes a Link Binary With Libraries phase. */
  lemma ShellPhaseKeepsLinking(phases: seq<Phase>, name: string, script: string)
    ensures Frameworks in WithShellPhase(phases, name, script) <==> Frameworks in phases
  {
    var r := WithShellPhase(phases, name, script);
    var i := FirstIndex(r, ShellNamed(name)).value;
    if Frameworks in r {
      var k :| 0 <= k < |r| && r[k] == Frameworks;
      assert k != i;
      assert phases[k] == Frameworks;
    }
    if Frameworks in phases {
      var k :| 0 <= k < |phases| && phases[k] == Frameworks;
      assert k != i by {
        if FirstIndex(phases, ShellNamed(name)).Some? {
          assert ShellNamed(name)(phases[i]);
        }
      }
      assert r[k] == Frameworks;
    }
  }

  /** A successful arrangement has a Link Binary With Libraries phase iff the target had one. */
  lemma ArrangeKeepsLinking(phases: seq<Phase>, doPostbuild: bool)
    requires ArrangePhases(phases, doPostbuild).failure.None?
    ensures Frameworks in ArrangePhases(phases, doPostbuild).value <==> Frameworks in phases
  {
    var withPre := WithShellPhase(phases, PrebuildName, PrebuildScript);
    var withPrelink := WithShellPhase(withPre, PrelinkName, PrelinkScript);
    var withPost := if doPostbuild then WithShellPhase(withPrelink, PostbuildName, PostbuildScript) else withPrelink;
    ShellPhaseKeepsLinking(phases, PrebuildName, PrebuildScript);
    ShellPhaseKeepsLinking(withPre, PrelinkName, PrelinkScript);
    ShellPhaseKeepsLinking(withPrelink, PostbuildName, PostbuildScript);
    SortKeepsLinking(withPost, doPostbuild);
  }

  /** A phase that passes the test makes the search for the first such phase succeed. */
  lemma FoundWhenPresent(s: seq<Phase>, p: Phase -> bool, x: Phase)
    requires x in s && p(x)
    ensures FirstIndex(s, p).Some?
  {
    var k :| 0 <= k < |s| && s[k] == x;
    assert p(s[k]);
  }

  /** Find-or-create of a shell-script phase keeps every phase that does not carry its name. */
  lemma ShellPhaseKeeps(phases: seq<Phase>, name: string, script: string, x: Phase)
    requires x in phases && !ShellNamed(name)(x)
    ensures x in WithShellPhase(phases, name, script)
  {
    var r := WithShellPhase(phases, name, script);
    var i := FirstIndex(r, ShellNamed(name)).value;
    var k :| 0 <= k < |phases| && phases[k] == x;
    assert k != i by {
      if FirstIndex(phases, ShellNamed(name)).Some? {
        assert ShellNamed(name)(phases[i]);
      }
    }
    assert r[k] == x;
  }

  /** A successful move keeps every phase; only `nil` padding can be new. */
  lemma MoveKeepsPhase(phases: seq<Phase>, key: Option<string>, to: Option<nat>, x: Phase)
    requires MoveNamed(phases, key, to).failure.None? && to.value <= |phases|
    requires x in phases && x != NilSlot
    ensures x in MoveNamed(phases, key, to).value
  {
    MoveNamedKeepsPhases(phases, key, to);
    assert x in multiset(phases);
    assert multiset(MoveNamed(phases, key, to).value)[x] == multiset(phases)[x];
  }

  /** Lines 180-187 go through when the postbuild phase is there, and keep every other phase. */
  lemma PostbuildStepSucceeds(phases: seq<Phase>, c: nat, doPostbuild: bool)
    requires c < |phases| && Frameworks in phases && Prebuild in phases && Prelink in phases
    requires doPostbuild ==> ShellScript(Some(PostbuildName), PostbuildScript) in phases
    ensures var post := PostbuildStep(phases, c, doPostbuild);
      && post.failure.None? && c < |post.value|
      && Frameworks in post.value && Prebuild in post.value && Prelink in post.value
  {
    if doPostbuild {
      FoundWhenPresent(phases, HasName(Some(PostbuildName)), ShellScript(Some(PostbuildName), PostbuildScript));
      assert PostbuildStep(phases, c, doPostbuild).failure.None?;
      MoveKeepsPhase(phases, Some(PostbuildName), Some(c + 1), Prebuild);
      MoveKeepsPhase(phases, Some(PostbuildName), Some(c + 1), Prelink);
      MoveKeepsPhase(phases, Some(PostbuildName), Some(c + 1), Frameworks);
    }
  }

  /**
   * The reordering of lines 171-213 goes through when Compile Sources, the linking phase
   * and the shell-script phases it moves are all there.
   */
  lemma SortSucceeds(phases: seq<Phase>, doPostbuild: bool)
    requires FirstIndex(phases, IsSources).Some? && Frameworks in phases
    requires Prebuild in phases && Prelink in phases
    requires doPostbuild ==> ShellScript(Some(PostbuildName), PostbuildScript) in phases
    ensures SortPhases(phases, doPostbuild).failure.None?
  {
    var c := FirstIndex(phases, IsSources).value;
    PostbuildStepSucceeds(phases, c, doPostbuild);
    var post := PostbuildStep(phases, c, doPostbuild).value;
    FoundWhenPresent(post, HasName(Some(PrebuildName)), Prebuild);
    var pre := MoveNamed(post, Some(PrebuildName), Some(c));
    assert pre.failure.None?;
    MoveKeepsPhase(post, Some(PrebuildName), Some(c), Prelink);
    MoveKeepsPhase(post, Some(PrebuildName), Some(c), Frameworks);
    FoundWhenPresent(pre.value, IsFrameworks, Frameworks);
    FoundWhenPresent(pre.value, HasName(Some(PrelinkName)), Prelink);
    assert PrelinkStep(pre.value, doPostbuild).failure.None?;
  }

  /**
   * Lines 139-213 go through on every target that has a Compile Sources phase and a
   * linking phase: the shell-script phases they move have just been found or created.
   */
  lemma ArrangeSucceeds(phases: seq<Phase>, doPostbuild: bool)
    requires FirstIndex(phases, IsSources).Some? && Frameworks in phases
    ensures ArrangePhases(phases, doPostbuild).failure.None?
  {
    var withPre := WithShellPhase(phases, PrebuildName, PrebuildScript);
    var withPrelink := WithShellPhase(withPre, PrelinkName, PrelinkScript);
    var withPost := if doPostbuild then WithShellPhase(withPrelink, PostbuildName, PostbuildScript) else withPrelink;
    PhaseNamesDiffer();
    ShellPhaseKeepsSources(phases, PrebuildName, PrebuildScript);
    ShellPhaseKeepsSources(withPre, PrelinkName, PrelinkScript);
    ShellPhaseKeepsSources(withPrelink, PostbuildName, PostbuildScript);
    ShellPhaseKeeps(phases, PrebuildName, PrebuildScript, Frameworks);
    ShellPhaseKeeps(withPre, PrelinkName, PrelinkScript, Frameworks);
    assert Prebuild in withPre;
    ShellPhaseKeeps(withPre, PrelinkName, PrelinkScript, Prebuild);
    assert Prelink in withPrelink;
    if doPostbuild {
      ShellPhaseKeeps(withPrelink, PostbuildName, PostbuildScript, Frameworks);
      ShellPhaseKeeps(withPrelink, PostbuildName, PostbuildScript, Prebuild);
      ShellPhaseKeeps(withPrelink, PostbuildName, PostbuildScript, Prelink);
      assert ShellScript(Some(PostbuildName), PostbuildScript) in withPost;
    }
    SortSucceeds(withPost, doPostbuild);
  }

  /** A successful arrangement keeps every phase that is not a shell script. */
  lemma ArrangeKeepsPhase(phases: seq<Phase>, doPostbuild: bool, x: Phase)
    requires ArrangePhases(phases, doPostbuild).failure.None?
    requires x in phases && !x.ShellScript? && x != NilSlot
    ensures x in ArrangePhases(phases, doPostbuild).value
  {
    var withPre := WithShellPhase(phases, PrebuildName, PrebuildScript);
    var withPrelink := WithShellPhase(withPre, PrelinkName, PrelinkScript);
    var withPost := if doPostbuild then WithShellPhase(withPrelink, PostbuildName, PostbuildScript) else withPrelink;
    ShellPhaseKeeps(phases, PrebuildName, PrebuildScript, x);
    ShellPhaseKeeps(withPre, PrelinkName, PrelinkScript, x);
    ShellPhaseKeeps(withPrelink, PostbuildName, PostbuildScript, x);
    SortKeepsPhases(withPost, doPostbuild);
    assert x in multiset(withPost);
    assert multiset(SortPhases(withPost, doPostbuild).value)[x] == multiset(withPost)[x];
  }

  /** A successful sort has a Link Binary With Libraries phase iff its input had one. */
  lemma SortKeepsLinking(phases: seq<Phase>, doPostbuild: bool)
    requires SortPhases(phases, doPostbuild).failure.None?
    ensures Frameworks in SortPhases(phases, doPostbuild).value <==> Frameworks in phases
  {
    var r := SortPhases(phases, doPostbuild).value;
    SortKeepsPhases(phases, doPostbuild);
    assert multiset(r)[Frameworks] == multiset(phases)[Frameworks];
    assert Frameworks in r <==> Frameworks in multiset(r);
    assert Frameworks in phases <==> Frameworks in multiset(phases);
  }

  /** Appending the embed phase leaves the first Compile Sources phase where it was. */
  lemma EmbedKeepsSources(sorted: seq<Phase>, nsRef: FileRef, widgetsRef: FileRef)
    requires FirstIndex(sorted, IsSources).Some?
    ensures FirstIndex(WithEmbedPhase(sorted, nsRef, widgetsRef), IsSources) == FirstIndex(sorted, IsSources)
  {
    var c := FirstIndex(sorted, IsSources).value;
    var embedded := WithEmbedPhase(sorted, nsRef, widgetsRef);
    assert forall k :: 0 <= k <= c ==> embedded[k] == sorted[k];
    FirstIndexAt(embedded, IsSources, c);
  }

  /** Adding the bundle to the resources phase leaves the first Compile Sources phase where it was. */
  lemma BundleKeepsSources(embedded: seq<Phase>, bundleRef: FileRef)
    requires FirstIndex(embedded, IsSources).Some?
    requires WithBundleResource(embedded, bundleRef).failure.None?
    ensures FirstIndex(WithBundleResource(embedded, bundleRef).value, IsSources) == FirstIndex(embedded, IsSources)
  {
    var c := FirstIndex(embedded, IsSources).value;
    var i := FirstIndex(embedded, IsResources).value;
    assert IsResources(embedded[i]) && IsSources(embedded[c]);
    assert i != c;
    var bundled := WithBundleResource(embedded, bundleRef).value;
    assert bundled[c] == embedded[c];
    FirstIndexAt(bundled, IsSources, c);
  }

  /** Both additions together keep Compile Sources. */
  lemma EmbedAndBundleKeepSources(sorted: seq<Phase>, nsRef: FileRef, widgetsRef: FileRef, bundleRef: FileRef)
    requires FirstIndex(sorted, IsSources).Some?
    requires WithBundleResource(WithEmbedPhase(sorted, nsRef, widgetsRef), bundleRef).failure.None?
    ensures FirstIndex(WithBundleResource(WithEmbedPhase(sorted, nsRef, widgetsRef), bundleRef).value, IsSources)
         == FirstIndex(sorted, IsSources)
  {
    EmbedKeepsSources(sorted, nsRef, widgetsRef);
    BundleKeepsSources(WithEmbedPhase(sorted, nsRef, widgetsRef), bundleRef);
  }

  /**
   * `after` holds every phase of `before` at its index, except that a Copy Bundle
   * Resources or Compile Sources phase may hold other files; it may have more phases.
   */
  ghost predicate OnlyFilesChanged(before: seq<Phase>, after: seq<Phase>)
  {
    && |before| <= |after|
    && (forall k :: 0 <= k < |before| && !IsResources(before[k]) && !IsSources(before[k]) ==> after[k] == before[k])
    && (forall k :: 0 <= k < |before| && IsResources(before[k]) ==> IsResources(after[k]))
    && (forall k :: 0 <= k < |before| && IsSources(before[k]) ==> IsSources(after[k]))
  }

  /** Two such edits in a row are one. */
  lemma OnlyFilesChangedTwice(a: seq<Phase>, b: seq<Phase>, c: seq<Phase>)
    requires OnlyFilesChanged(a, b) && OnlyFilesChanged(b, c)
    ensures OnlyFilesChanged(a, c)
  {
  }

  /** The embed phase and the bundle change only files, apart from the appended embed phase. */
  lemma EmbedAndBundleChangeOnlyFiles(sorted: seq<Phase>, nsRef: FileRef, widgetsRef: FileRef, bundleRef: FileRef)
    requires WithBundleResource(WithEmbedPhase(sorted, nsRef, widgetsRef), bundleRef).failure.None?
    ensures OnlyFilesChanged(sorted, WithBundleResource(WithEmbedPhase(sorted, nsRef, widgetsRef), bundleRef).value)
  {
    var embedded := WithEmbedPhase(sorted, nsRef, widgetsRef);
    assert OnlyFilesChanged(sorted, embedded) by {
      assert forall k :: 0 <= k < |sorted| ==> embedded[k] == sorted[k];
    }
    var i := FirstIndex(embedded, IsResources).value;
    assert OnlyFilesChanged(embedded, WithBundleResource(embedded, bundleRef).value);
    OnlyFilesChangedTwice(sorted, embedded, WithBundleResource(embedded, bundleRef).value);
  }

  /**
   * `after` is `before` with at most the embed phase appended, exactly when no phase has
   * its name, and otherwise only files of Copy Bundle Resources and Compile Sources
   * phases changed.
   */
  ghost predicate AddsOnlyEmbedPhase(before: seq<Phase>, after: seq<Phase>, nsRef: FileRef, widgetsRef: FileRef)
  {
    && (|after| == |before| || |after| == |before| + 1)
    && (|after| == |before| + 1 <==> FirstIndex(before, HasName(Some(EmbedPhaseName))).None?)
    && (|after| == |before| + 1 ==> after[|before|] == CopyFiles(Some(EmbedPhaseName), "", EmbedFiles(nsRef, widgetsRef)))
    && OnlyFilesChanged(before, after)
  }

  /** Lines 253-269 add only the embed phase. */
  lemma EmbedAddsOnlyEmbedPhase(sorted: seq<Phase>, nsRef: FileRef, widgetsRef: FileRef)
    ensures AddsOnlyEmbedPhase(sorted, WithEmbedPhase(sorted, nsRef, widgetsRef), nsRef, widgetsRef)
  {
    var embedded := WithEmbedPhase(sorted, nsRef, widgetsRef);
    assert forall k :: 0 <= k < |sorted| ==> embedded[k] == sorted[k];
  }

  /** Lines 299-313 change only the files of Copy Bundle Resources. */
  lemma BundleChangesOnlyFiles(embedded: seq<Phase>, bundleRef: FileRef)
    requires WithBundleResource(embedded, bundleRef).failure.None?
    ensures |WithBundleResource(embedded, bundleRef).value| == |embedded|
    ensures OnlyFilesChanged(embedded, WithBundleResource(embedded, bundleRef).value)
  {
  }

  /** Lines 331-340 change only the files of Compile Sources. */
  lemma CompileChangesOnlyFiles(bundled: seq<Phase>, metaRefs: seq<FileRef>)
    requires FirstIndex(bundled, IsSources).Some?
    ensures |WithCompileSources(bundled, metaRefs).value| == |bundled|
    ensures OnlyFilesChanged(bundled, WithCompileSources(bundled, metaRefs).value)
  {
  }

  /** Changing only files after adding only the embed phase still adds only the embed phase. */
  lemma AddsOnlyEmbedThenFiles(sorted: seq<Phase>, a: seq<Phase>, b: seq<Phase>, nsRef: FileRef, widgetsRef: FileRef)
    requires AddsOnlyEmbedPhase(sorted, a, nsRef, widgetsRef) && OnlyFilesChanged(a, b) && |b| == |a|
    ensures AddsOnlyEmbedPhase(sorted, b, nsRef, widgetsRef)
  {
    OnlyFilesChangedTwice(sorted, a, b);
    if |a| == |sorted| + 1 {
      assert !IsResources(a[|sorted|]) && !IsSources(a[|sorted|]);
    }
  }

  /**
   * The steps after the reordering, lines 253-340: embed phase, user bundle, compile
   * sources. They can stop only at the resources exit or at a nil file type. The only
   * phase they add is the embed phase, appended when none has its name; otherwise they
   * change only the files of Copy Bundle Resources and Compile Sources phases.
   */
  function FinishPhases(sorted: seq<Phase>, nsRef: FileRef, widgetsRef: FileRef, bundleRef: FileRef,
                        metaRefs: seq<FileRef>): (r: Outcome<seq<Phase>>)
    requires FirstIndex(sorted, IsSources).Some?
    ensures r.failure.None? || r.failure == Some(NoResourcesPhase) || r.failure == Some(NilFileType)
    ensures AddsOnlyEmbedPhase(sorted, r.value, nsRef, widgetsRef)
  {
    var embedded := WithEmbedPhase(sorted, nsRef, widgetsRef);
    var bundled := WithBundleResource(embedded, bundleRef);
    EmbedAddsOnlyEmbedPhase(sorted, nsRef, widgetsRef);
    if bundled.failure.Some? then
      bundled
    else
      EmbedAndBundleKeepSources(sorted, nsRef, widgetsRef, bundleRef);
      BundleChangesOnlyFiles(embedded, bundleRef);
      AddsOnlyEmbedThenFiles(sorted, embedded, bundled.value, nsRef, widgetsRef);
      var compiled := WithCompileSources(bundled.value, metaRefs);
      CompileChangesOnlyFiles(bundled.value, metaRefs);
      AddsOnlyEmbedThenFiles(sorted, bundled.value, compiled.value, nsRef, widgetsRef);
      compiled
  }

  /**
   * Which way the steps after the reordering end: at the resources exit exactly when the
   * target has no Copy Bundle Resources phase, and otherwise with success exactly when
   * every meta-group reference has a file type.
   */
  lemma FinishOutcome(sorted: seq<Phase>, nsRef: FileRef, widgetsRef: FileRef, bundleRef: FileRef,
                      metaRefs: seq<FileRef>)
    requires FirstIndex(sorted, IsSources).Some?
    ensures var r := FinishPhases(sorted, nsRef, widgetsRef, bundleRef, metaRefs);
      && (FirstIndex(sorted, IsResources).None? ==> r.failure == Some(NoResourcesPhase))
      && (FirstIndex(sorted, IsResources).Some? ==>
            (r.failure.None? <==> forall k :: 0 <= k < |metaRefs| ==> metaRefs[k].fileType.Some?))
  {
    var embedded := WithEmbedPhase(sorted, nsRef, widgetsRef);
    assert forall k :: 0 <= k < |sorted| ==> embedded[k] == sorted[k];
    if FirstIndex(sorted, IsResources).Some? {
      FoundWhenPresent(embedded, IsResources, sorted[FirstIndex(sorted, IsResources).value]);
      EmbedAndBundleKeepSources(sorted, nsRef, widgetsRef, bundleRef);
    }
  }

  /**
   * Lines 209-340, after a successful reordering. Line 209 takes `linkingPhase` as the
   * first Link Binary With Libraries phase, nil when there is none; lines 220, 232 and 244
   * add every framework reference they have to create to it, and so raise on nil.
   * `createsFrameworkRef` says whether the frameworks group lacks one of those references.
   */
  function LinkAndFinish(sorted: seq<Phase>, createsFrameworkRef: bool, nsRef: FileRef, widgetsRef: FileRef,
                         bundleRef: FileRef, metaRefs: seq<FileRef>): (r: Outcome<seq<Phase>>)
    requires FirstIndex(sorted, IsSources).Some?
    ensures createsFrameworkRef && Frameworks !in sorted ==> r == Outcome(sorted, Some(NilLinkingPhase))
    ensures !(createsFrameworkRef && Frameworks !in sorted) ==> r == FinishPhases(sorted, nsRef, widgetsRef, bundleRef, metaRefs)
    ensures r.failure == Some(NilLinkingPhase) <==> createsFrameworkRef && Frameworks !in sorted
    ensures r.failure.None? || r.failure == Some(NilLinkingPhase) || r.failure == Some(NoResourcesPhase)
            || r.failure == Some(NilFileType)
  {
    if createsFrameworkRef && FirstIndex(sorted, IsFrameworks).None? then
      Outcome(sorted, Some(NilLinkingPhase))
    else
      FinishPhases(sorted, nsRef, widgetsRef, bundleRef, metaRefs)
  }

  /**
   * The whole phase edit of lines 139-340, stopping at the first exit or error. A target
   * without a Compile Sources phase always ends in the exit of line 176, whatever else it
   * holds; the exit of line 212 is never taken; and a target without a linking phase
   * cannot get through when a framework reference has to be created.
   */
  function ConfigurePhases(phases: seq<Phase>, doPostbuild: bool, createsFrameworkRef: bool, nsRef: FileRef,
                           widgetsRef: FileRef, bundleRef: FileRef, metaRefs: seq<FileRef>): (r: Outcome<seq<Phase>>)
    ensures FirstIndex(phases, IsSources).None? ==> r.failure == Some(NoCompileSourcesPhase)
    ensures r.failure != Some(NoLinkingPhase)
    ensures createsFrameworkRef && Frameworks !in phases ==> r.failure.Some?
  {
    var arranged := ArrangePhases(phases, doPostbuild);
    if arranged.failure.Some? then arranged
    else
      ArrangeKeepsSources(phases, doPostbuild);
      ArrangeKeepsLinking(phases, doPostbuild);
      LinkAndFinish(arranged.value, createsFrameworkRef, nsRef, widgetsRef, bundleRef, metaRefs)
  }

  /**
   * On a target with Compile Sources, Copy Bundle Resources and Link Binary With
   * Libraries phases, the whole edit goes through exactly when every meta-group
   * reference has a file type.
   */
  lemma ConfigureSucceeds(phases: seq<Phase>, doPostbuild: bool, createsFrameworkRef: bool, nsRef: FileRef,
                          widgetsRef: FileRef, bundleRef: FileRef, metaRefs: seq<FileRef>)
    requires FirstIndex(phases, IsSources).Some? && FirstIndex(phases, IsResources).Some? && Frameworks in phases
    ensures ConfigurePhases(phases, doPostbuild, createsFrameworkRef, nsRef, widgetsRef, bundleRef, metaRefs).failure.None?
        <==> forall k :: 0 <= k < |metaRefs| ==> metaRefs[k].fileType.Some?
  {
    ArrangeSucceeds(phases, doPostbuild);
    var arranged := ArrangePhases(phases, doPostbuild).value;
    ArrangeKeepsSources(phases, doPostbuild);
    ArrangeKeepsLinking(phases, doPostbuild);
    var res := phases[FirstIndex(phases, IsResources).value];
    ArrangeKeepsPhase(phases, doPostbuild, res);
    FoundWhenPresent(arranged, IsResources, res);
    FinishOutcome(arranged, nsRef, widgetsRef, bundleRef, metaRefs);
  }

  /** The app target: its build phases, in order. */
  class NativeTarget {
    var buildPhases: seq<Phase>

    constructor (phases: seq<Phase>)
      ensures buildPhases == phases
    {
      buildPhases := phases;
    }

    /** Find the named shell-script phase or append a new one, then set its script. */
    method EnsureShellPhase(name: string, script: string)
      modifies this
      ensures buildPhases == WithShellPhase(old(buildPhases), name, script)
    {
      var found := FirstIndex(buildPhases, ShellNamed(name));
      if found.None? {
        // `new_shell_script_build_phase` appends the phase; its script is set just below.
        buildPhases := buildPhases + [ShellScript(Some(name), "")];
        found := Some(|buildPhases| - 1);
      }
      buildPhases := buildPhases[found.value := ShellScript(Some(name), script)];
    }

    /** `build_phases.insert(to, build_phases.delete_at(index of the phase named key))`. */
    method MoveNamedPhase(key: Option<string>, to: Option<nat>) returns (failure: Option<Failure>)
      modifies this
      ensures Outcome(buildPhases, failure) == MoveNamed(old(buildPhases), key, to)
    {
      var from := FirstIndex(buildPhases, HasName(key));
      if from.None? {
        return Some(NilIndex);
      }
      var moved := buildPhases[from.value];
      buildPhases := DeleteAt(buildPhases, from.value);
      if to.None? {
        return Some(NilIndex);
      }
      buildPhases := Insert(buildPhases, to.value, moved, NilSlot);
      failure := None;
    }

    /**
     * Lines 171-207: postbuild after Compile Sources, prebuild before it, prelink before
     * the linking phase. The exit at lines 210-213 is not reached: when the linking
     * index is nil, the `insert` has raised already.
     */
    method SortBuildPhases(doPostbuild: bool) returns (failure: Option<Failure>)
      modifies this
      ensures Outcome(buildPhases, failure) == SortPhases(old(buildPhases), doPostbuild)
    {
      var c := FirstIndex(buildPhases, IsSources);
      if c.None? {
        return Some(NoCompileSourcesPhase);
      }
      failure := MovePostbuildPhase(c.value, doPostbuild);
      if failure.Some? {
        return;
      }
      failure := MoveNamedPhase(Some(PrebuildName), Some(c.value));
      if failure.Some? {
        return;
      }
      failure := MovePrelinkPhase(doPostbuild);
    }

    /** Lines 180-187: with postbuild on, its phase goes right after Compile Sources, at index `c`. */
    method MovePostbuildPhase(c: nat, doPostbuild: bool) returns (failure: Option<Failure>)
      modifies this
      ensures Outcome(buildPhases, failure) == PostbuildStep(old(buildPhases), c, doPostbuild)
    {
      failure := None;
      if doPostbuild {
        failure := MoveNamedPhase(Some(PostbuildName), Some(if |buildPhases| == 0 then 0 else c + 1));
      }
    }

    /** Lines 195-207: the prelink phase goes to the index of the linking phase, or else of the postbuild phase. */
    method MovePrelinkPhase(doPostbuild: bool) returns (failure: Option<Failure>)
      modifies this
      ensures Outcome(buildPhases, failure) == PrelinkStep(old(buildPhases), doPostbuild)
    {
      var link := FirstIndex(buildPhases, IsFrameworks);
      if link.None? {
        link := FirstIndex(buildPhases, HasName(PostbuildKey(doPostbuild)));
      }
      failure := MoveNamedPhase(Some(PrelinkName), link);
    }

    /** Lines 253-269: create the embed-frameworks phase with its two frameworks unless it exists. */
    method EnsureEmbedPhase(nsRef: FileRef, widgetsRef: FileRef)
      modifies this
      ensures buildPhases == WithEmbedPhase(old(buildPhases), nsRef, widgetsRef)
    {
      var found := FirstIndex(buildPhases, HasName(Some(EmbedPhaseName)));
      if found.None? {
        buildPhases := buildPhases + [CopyFiles(Some(EmbedPhaseName), "", [])];
        var last := |buildPhases| - 1;
        var files := buildPhases[last].files;
        if !AnyEndsWith(files, NativeScriptFramework) {
          files := files + [nsRef];
        }
        if !AnyEndsWith(files, WidgetsFramework) {
          files := files + [widgetsRef];
        }
        buildPhases := buildPhases[last := CopyFiles(Some(EmbedPhaseName), "", files)];
        assert files == EmbedFiles(nsRef, widgetsRef);
      }
    }

    /** Lines 299-313: add the user bundle to Copy Bundle Resources unless it is there. */
    method AddBundleToResources(bundleRef: FileRef) returns (failure: Option<Failure>)
      modifies this
      ensures Outcome(buildPhases, failure) == WithBundleResource(old(buildPhases), bundleRef)
    {
      var i := FirstIndex(buildPhases, IsResources);
      if i.None? {
        return Some(NoResourcesPhase);
      }
      var files := buildPhases[i.value].files;
      if !AnyEndsWith(files, BundleFile) {
        buildPhases := buildPhases[i.value := Resources(files + [bundleRef])];
      } else {
        assert buildPhases[i.value] == Resources(files);
        assert buildPhases[i.value := Resources(files)] == buildPhases;
      }
      failure := None;
    }

    /** Lines 331-340: each meta-group reference of a compilable type joins Compile Sources, without duplicates. */
    method AddCompileSources(metaRefs: seq<FileRef>) returns (failure: Option<Failure>)
      requires FirstIndex(buildPhases, IsSources).Some?
      modifies this
      ensures Outcome(buildPhases, failure) == WithCompileSources(old(buildPhases), metaRefs)
    {
      var c := FirstIndex(buildPhases, IsSources).value;
      ghost var start := buildPhases;
      var files := buildPhases[c].files;
      for i := 0 to |metaRefs|
        invariant AddSourceFiles(start[c].files, metaRefs[..i]) == Outcome(files, None)
        invariant buildPhases == start[c := Sources(files)]
      {
        assert metaRefs[..i + 1][..i] == metaRefs[..i];
        var ref := metaRefs[i];
        if ref.fileType.None? {
          assert metaRefs[..i + 1] == metaRefs[..i] + [ref];
          failure := Some(NilFileType);
          assert AddSourceFiles(start[c].files, metaRefs[..i + 1]) == Outcome(files, failure);
          AddSourceFilesStops(start[c].files, metaRefs, i + 1);
          return;
        }
        if IsCompilable(ref.fileType.value) && ref !in files {
          files := files + [ref];
          buildPhases := buildPhases[c := Sources(files)];
        }
      }
      assert metaRefs[..|metaRefs|] == metaRefs;
      failure := None;
    }

    /** Lines 139-213: the three shell-script phases found or created, then sorted. */
    method ArrangeBuildPhases(doPostbuild: bool) returns (failure: Option<Failure>)
      modifies this
      ensures Outcome(buildPhases, failure) == ArrangePhases(old(buildPhases), doPostbuild)
    {
      EnsureShellPhase(PrebuildName, PrebuildScript);
      EnsureShellPhase(PrelinkName, PrelinkScript);
      if doPostbuild {
        EnsureShellPhase(PostbuildName, PostbuildScript);
      }
      failure := SortBuildPhases(doPostbuild);
    }

    /** Lines 139-340 on the build phases: each step in order, stopping at the first exit or error. */
    method Configure(doPostbuild: bool, createsFrameworkRef: bool, nsRef: FileRef, widgetsRef: FileRef,
                     bundleRef: FileRef, metaRefs: seq<FileRef>) returns (failure: Option<Failure>)
      modifies this
      ensures Outcome(buildPhases, failure)
           == ConfigurePhases(old(buildPhases), doPostbuild, createsFrameworkRef, nsRef, widgetsRef, bundleRef, metaRefs)
    {
      failure := ArrangeBuildPhases(doPostbuild);
      if failure.Some? {
        return;
      }
      var linkingPhase := FirstIndex(buildPhases, IsFrameworks);
      if createsFrameworkRef && linkingPhase.None? {
        failure := Some(NilLinkingPhase);
        return;
      }
      ArrangeKeepsSources(old(buildPhases), doPostbuild);
      ghost var sorted := buildPhases;
      EnsureEmbedPhase(nsRef, widgetsRef);
      failure := AddBundleToResources(bundleRef);
      if failure.Some? {
        return;
      }
      EmbedAndBundleKeepSources(sorted, nsRef, widgetsRef, bundleRef);
      failure := AddCompileSources(metaRefs);
    }
  }
}
