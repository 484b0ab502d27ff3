/**
 * The file references the Podfile helper puts into build phases: the embed-frameworks
 * copy phase, the user bundle in Copy Bundle Resources, and the source files of the
 * NativeScript meta group in Compile Sources. Each is added only when no matching
 * entry is there already.
 */
module FileReferences {
  import opened Common
  import opened RubyArrays
  import opened BuildPhases

  /** `files.any? { |ref| ref.file_ref.path.end_with? suffix }`. */
  predicate AnyEndsWith(files: seq<FileRef>, suffix: string)
  {
    exists k :: 0 <= k < |files| && EndsWith(files[k].path, suffix)
  }

  /** `add_file_reference(ref)` unless some entry's path already ends with `suffix`. */
  function AddIfAbsent(files: seq<FileRef>, ref: FileRef, suffix: string): (r: seq<FileRef>)
    ensures files <= r && |r| <= |files| + 1
    ensures |r| == |files| + 1 <==> !AnyEndsWith(files, suffix)
    ensures |r| == |files| + 1 ==> r[|files|] == ref
    ensures EndsWith(ref.path, suffix) ==> AnyEndsWith(r, suffix)
  {
    if AnyEndsWith(files, suffix) then files
    else
      assert (files + [ref])[|files|] == ref;
      files + [ref]
  }

  /** When the added reference matches its own test, adding it again changes nothing. */
  lemma AddIfAbsentIdempotent(files: seq<FileRef>, ref: FileRef, suffix: string)
    requires EndsWith(ref.path, suffix)
    ensures AddIfAbsent(AddIfAbsent(files, ref, suffix), ref, suffix) == AddIfAbsent(files, ref, suffix)
  {
  }

  // ---------------------------------------------------------------------------
  // The embed-frameworks phase
  // ---------------------------------------------------------------------------

  /** The files of a freshly created embed phase: the two frameworks, each unless already matched. */
  function EmbedFiles(nsRef: FileRef, widgetsRef: FileRef): seq<FileRef>
  {
    AddIfAbsent(AddIfAbsent([], nsRef, NativeScriptFramework), widgetsRef, WidgetsFramework)
  }

  /** No path ends with both framework names: they differ just before `.xcframework`. */
  lemma FrameworkSuffixesExclusive(path: string)
    requires EndsWith(path, NativeScriptFramework)
    ensures !EndsWith(path, WidgetsFramework)
  {
    var n := |path|;
    assert path[n - 13] == path[n - |NativeScriptFramework|..][|NativeScriptFramework| - 13];
    assert NativeScriptFramework[|NativeScriptFramework| - 13] == 't';
  }

  /** A new embed phase holds exactly the NativeScript framework, then the widgets framework. */
  lemma EmbedFilesAreBothFrameworks(nsRef: FileRef, widgetsRef: FileRef)
    requires EndsWith(nsRef.path, NativeScriptFramework)
    ensures EmbedFiles(nsRef, widgetsRef) == [nsRef, widgetsRef]
  {
    assert !AnyEndsWith([], NativeScriptFramework);
    assert AddIfAbsent([], nsRef, NativeScriptFramework) == [nsRef];
    FrameworkSuffixesExclusive(nsRef.path);
    assert !AnyEndsWith([nsRef], WidgetsFramework);
  }

  /**
   * Lines 253-269: when no phase is named "NativeScript Embed Frameworks" a copy-files
   * phase of that name is appended with the frameworks; an existing one is left alone.
   */
  function WithEmbedPhase(phases: seq<Phase>, nsRef: FileRef, widgetsRef: FileRef): (r: seq<Phase>)
    ensures phases <= r && |r| <= |phases| + 1
    ensures FirstIndex(r, HasName(Some(EmbedPhaseName))).Some?
    ensures |r| == |phases| + 1 <==> FirstIndex(phases, HasName(Some(EmbedPhaseName))).None?
    ensures |r| == |phases| + 1 ==> r[|phases|] == CopyFiles(Some(EmbedPhaseName), "", EmbedFiles(nsRef, widgetsRef))
  {
    if FirstIndex(phases, HasName(Some(EmbedPhaseName))).Some? then phases
    else
      var r := phases + [CopyFiles(Some(EmbedPhaseName), "", EmbedFiles(nsRef, widgetsRef))];
      FirstIndexAt(r, HasName(Some(EmbedPhaseName)), |phases|);
      r
  }

  /** A second run finds the embed phase by its name and adds nothing. */
  lemma WithEmbedPhaseIdempotent(phases: seq<Phase>, nsRef: FileRef, widgetsRef: FileRef)
    ensures WithEmbedPhase(WithEmbedPhase(phases, nsRef, widgetsRef), nsRef, widgetsRef)
         == WithEmbedPhase(phases, nsRef, widgetsRef)
  {
  }

  // ---------------------------------------------------------------------------
  // The user bundle in Copy Bundle Resources
  // ---------------------------------------------------------------------------

  /**
   * Lines 299-313: with no resources phase the helper exits; otherwise the bundle is
   * added to the first resources phase unless an entry there ends with its file name.
   */
  function WithBundleResource(phases: seq<Phase>, bundleRef: FileRef): (r: Outcome<seq<Phase>>)
    ensures r.failure.None? <==> FirstIndex(phases, IsResources).Some?
    ensures r.failure.Some? ==> r == Outcome(phases, Some(NoResourcesPhase))
    ensures r.failure.None? ==>
      var i := FirstIndex(phases, IsResources).value;
      && |r.value| == |phases|
      && (forall k :: 0 <= k < |phases| && k != i ==> r.value[k] == phases[k])
      && r.value[i].Resources?
      && phases[i].files <= r.value[i].files && |r.value[i].files| <= |phases[i].files| + 1
      && (EndsWith(bundleRef.path, BundleFile) ==> AnyEndsWith(r.value[i].files, BundleFile))
    ensures r.failure.None? ==>
      var i := FirstIndex(phases, IsResources).value;
      r.value == phases[i := Resources(AddIfAbsent(phases[i].files, bundleRef, BundleFile))]
  {
    match FirstIndex(phases, IsResources)
    case None => Outcome(phases, Some(NoResourcesPhase))
    case Some(i) => Outcome(phases[i := Resources(AddIfAbsent(phases[i].files, bundleRef, BundleFile))], None)
  }

  /** When the bundle's path ends with its file name, a second run adds nothing. */
  lemma WithBundleResourceIdempotent(phases: seq<Phase>, bundleRef: FileRef)
    requires EndsWith(bundleRef.path, BundleFile)
    ensures var once := WithBundleResource(phases, bundleRef);
      WithBundleResource(once.value, bundleRef) == once
  {
    var once := WithBundleResource(phases, bundleRef);
    if once.failure.None? {
      var i := FirstIndex(phases, IsResources).value;
      var f1 := AddIfAbsent(phases[i].files, bundleRef, BundleFile);
      assert once.value == phases[i := Resources(f1)];
      FirstIndexUpdate(phases, i, Resources(f1), IsResources);
      AddIfAbsentIdempotent(phases[i].files, bundleRef, BundleFile);
      assert once.value[i].files == f1;
      assert once.value[i := Resources(f1)] == once.value;
    }
  }

  // ---------------------------------------------------------------------------
  // Compile Sources: the meta group's source files
  // ---------------------------------------------------------------------------

  /** The file types Xcode gives property lists and module maps. */
  const PlistFileType: string := "text.plist.xml"
  const ModuleMapFileType: string := "sourcecode.module-map"

  /**
   * The filter of line 335: a source-code type that is neither a header, a property list
   * nor a module map. The property-list test never excludes anything, because that type
   * does not start with `sourcecode.`.
   */
  function IsCompilable(fileType: string): (r: bool)
    ensures r <==> StartsWith(fileType, "sourcecode.") && !EndsWith(fileType, ".h") && fileType != ModuleMapFileType
  {
    StartsWith(fileType, "sourcecode.") && !EndsWith(fileType, ".h")
    && (assert PlistFileType[0] == 't'; fileType != PlistFileType) && fileType != ModuleMapFileType
  }

  /**
   * Lines 331-340 on the Compile Sources file list: every meta-group reference of a
   * compilable type is added unless it is there already; a reference whose type is
   * nil stops the run, keeping what was added before it.
   */
  function AddSourceFiles(files: seq<FileRef>, refs: seq<FileRef>): (r: Outcome<seq<FileRef>>)
    ensures files <= r.value
    ensures forall k :: |files| <= k < |r.value| ==>
      r.value[k] in refs && r.value[k].fileType.Some? && IsCompilable(r.value[k].fileType.value)
    ensures forall i, j :: 0 <= i < j < |r.value| && |files| <= j ==> r.value[i] != r.value[j]
    ensures r.failure.None? <==> forall k :: 0 <= k < |refs| ==> refs[k].fileType.Some?
    ensures r.failure.Some? ==> r.failure == Some(NilFileType)
    ensures r.failure.None? ==>
      forall k :: 0 <= k < |refs| && IsCompilable(refs[k].fileType.value) ==> refs[k] in r.value
    decreases |refs|
  {
    if refs == [] then Outcome(files, None)
    else
      var init := refs[..|refs| - 1];
      var ref := refs[|refs| - 1];
      var prev := AddSourceFiles(files, init);
      assert forall k :: 0 <= k < |init| ==> init[k] == refs[k];
      if prev.failure.Some? then prev
      else if ref.fileType.None? then Outcome(prev.value, Some(NilFileType))
      else if IsCompilable(ref.fileType.value) && ref !in prev.value then
        var r := prev.value + [ref];
        assert forall k :: 0 <= k < |prev.value| ==> r[k] == prev.value[k];
        Outcome(r, None)
      else prev
  }

  /** Once a prefix of the references stopped the run, the rest of them changes nothing. */
  lemma {:induction false} AddSourceFilesStops(files: seq<FileRef>, refs: seq<FileRef>, n: nat)
    requires n <= |refs| && AddSourceFiles(files, refs[..n]).failure.Some?
    ensures AddSourceFiles(files, refs) == AddSourceFiles(files, refs[..n])
    decreases |refs| - n
  {
    if n < |refs| {
      assert refs[..n + 1][..n] == refs[..n];
      AddSourceFilesStops(files, refs, n + 1);
    } else {
      assert refs[..n] == refs;
    }
  }

  /** When every compilable reference is present already, the filter adds nothing. */
  lemma {:induction false} AddSourceFilesWhenPresent(files: seq<FileRef>, refs: seq<FileRef>)
    requires forall k :: 0 <= k < |refs| ==> refs[k].fileType.Some?
    requires forall k :: 0 <= k < |refs| && IsCompilable(refs[k].fileType.value) ==> refs[k] in files
    ensures AddSourceFiles(files, refs) == Outcome(files, None)
    decreases |refs|
  {
    if refs != [] {
      AddSourceFilesWhenPresent(files, refs[..|refs| - 1]);
    }
  }

  /** A second run of the filter over the same meta group adds nothing. */
  lemma AddSourceFilesIdempotent(files: seq<FileRef>, refs: seq<FileRef>)
    requires AddSourceFiles(files, refs).failure.None?
    ensures AddSourceFiles(AddSourceFiles(files, refs).value, refs) == AddSourceFiles(files, refs)
  {
    AddSourceFilesWhenPresent(AddSourceFiles(files, refs).value, refs);
  }

  /** The filter applied to the Compile Sources phase, the first sources phase of the target. */
  function WithCompileSources(phases: seq<Phase>, refs: seq<FileRef>): (r: Outcome<seq<Phase>>)
    requires FirstIndex(phases, IsSources).Some?
    ensures |r.value| == |phases|
    ensures forall k :: 0 <= k < |phases| && k != FirstIndex(phases, IsSources).value ==> r.value[k] == phases[k]
    ensures var added := AddSourceFiles(phases[FirstIndex(phases, IsSources).value].files, refs);
      r.value[FirstIndex(phases, IsSources).value] == Sources(added.value) && r.failure == added.failure
  {
    var i := FirstIndex(phases, IsSources).value;
    var added := AddSourceFiles(phases[i].files, refs);
    Outcome(phases[i := Sources(added.value)], added.failure)
  }
}
