/**
 `EmbulkJUnitPlatformTestFramework`: the build-side test framework object.
 Modelled are its configuration fields, `copyWithFilters`,
 `getUseDistributionDependencies`, and the tag check `validateOptions` that
 runs before the processor factory is built.
 */
module EmbulkJUnitPlatformTestFramework {
  import opened Results
  import opened Strings
  import opened StringOrder

  /** `JUnitPlatformOptions`: engine and tag selections. */
  datatype PlatformOptions = PlatformOptions(
    includeEngines: set<string>,
    excludeEngines: set<string>,
    includeTags: set<string>,
    excludeTags: set<string>)

  /** The test filter, kept as an opaque value; its own behaviour is not part of this model. */
  datatype TestFilter = TestFilter(includePatterns: set<string>, excludePatterns: set<string>,
                                   commandLineIncludePatterns: set<string>)

  /** The framework object. `dryRun` stands for the value its provider yields. */
  datatype Framework = Framework(
    filter: TestFilter,
    useImplementationDependencies: bool,
    options: PlatformOptions,
    dryRun: bool)

  /** `JUnitPlatformSpec`: what the processor factory is built from. */
  datatype PlatformSpec = PlatformSpec(
    filter: TestFilter,
    includeEngines: set<string>,
    excludeEngines: set<string>,
    includeTags: set<string>,
    excludeTags: set<string>,
    dryRun: bool)

  /** The public constructor: fresh options, with no engines or tags selected. */
  function NewFramework(filter: TestFilter, useImplementationDependencies: bool, dryRun: bool): (fw: Framework)
    ensures fw.options.includeTags == {} && fw.options.excludeTags == {}
    ensures fw.options.includeEngines == {} && fw.options.excludeEngines == {}
    ensures fw.filter == filter && fw.useImplementationDependencies == useImplementationDependencies
    ensures fw.dryRun == dryRun
  {
    Framework(filter, useImplementationDependencies, PlatformOptions({}, {}, {}, {}), dryRun)
  }

  /**
   `copyWithFilters`: a framework that differs from `fw` only in its filter;
   the options are carried over as a copy with the same contents.
   */
  function CopyWithFilters(fw: Framework, newFilter: TestFilter): (copy: Framework)
    ensures copy.filter == newFilter
    ensures copy.useImplementationDependencies == fw.useImplementationDependencies
    ensures copy.options == fw.options
    ensures copy.dryRun == fw.dryRun
    ensures copy == fw.(filter := newFilter)
  {
    var copiedOptions := PlatformOptions(fw.options.includeEngines, fw.options.excludeEngines,
                                         fw.options.includeTags, fw.options.excludeTags);
    Framework(newFilter, fw.useImplementationDependencies, copiedOptions, fw.dryRun)
  }

  /** `getUseDistributionDependencies`: the constructor's flag. */
  function UseDistributionDependencies(fw: Framework): (useDistribution: bool)
    ensures useDistribution == fw.useImplementationDependencies
  {
    fw.useImplementationDependencies
  }

  /**
   Copying with the current filter changes nothing, and only the last of two
   successive copies' filters survives.
   */
  lemma CopyWithFiltersLaws(fw: Framework, f1: TestFilter, f2: TestFilter)
    ensures CopyWithFilters(fw, fw.filter) == fw
    ensures CopyWithFilters(CopyWithFilters(fw, f1), f2) == CopyWithFilters(fw, f2)
    ensures UseDistributionDependencies(CopyWithFilters(fw, f1)) == UseDistributionDependencies(fw)
  {
  }

  /** `getUseDistributionDependencies` returns the flag the framework was constructed with. */
  lemma UseDistributionDependenciesIsConstructorFlag(filter: TestFilter, flag: bool, dryRun: bool)
    ensures UseDistributionDependencies(NewFramework(filter, flag, dryRun)) == flag
  {
  }

  // ---------------------------------------------------------------- validateOptions

  function Quote(tag: string): string
  {
    "'" + tag + "'"
  }

  /** The tags, each single-quoted, joined by ", ". */
  function QuotedList(tags: seq<string>): string
  {
    Join(seq(|tags|, i requires 0 <= i < |tags| => Quote(tags[i])), ", ")
  }

  function SingularWarning(tag: string): string
  {
    "The tag " + Quote(tag) + " is both included and excluded.  "
    + "This will result in the tag being excluded, which may not be what was intended.  "
    + "Please either include or exclude the tag but not both."
  }

  function PluralWarning(allTags: string): string
  {
    "The tags " + allTags + " are both included and excluded.  "
    + "This will result in the tags being excluded, which may not be what was intended.  "
    + "Please either include or exclude the tags but not both."
  }

  lemma SingletonMember(s: set<string>)
    requires |s| == 1
    ensures forall a, b :: a in s && b in s ==> a == b
  {
    var x :| x in s;
    assert |s - {x}| == 0;
    assert s - {x} == {};
    assert forall a :: a in s ==> a == x by {
      forall a | a in s ensures a == x {
        assert a !in s - {x};
      }
    }
  }

  /**
   `validateOptions`: the warning logged when some tag is both included and
   excluded (`None` when nothing is logged). It names the one common tag, or
   lists all common tags once each in ascending order.
   */
  function ValidateOptions(options: PlatformOptions): (warning: Option<string>)
    ensures warning.Some? <==> options.includeTags * options.excludeTags != {}
    ensures forall t :: t in options.includeTags * options.excludeTags && |options.includeTags * options.excludeTags| == 1 ==>
      warning == Some(SingularWarning(t))
    ensures |options.includeTags * options.excludeTags| >= 2 ==>
      warning == Some(PluralWarning(QuotedList(Sorted(options.includeTags * options.excludeTags))))
  {
    var intersection := options.includeTags * options.excludeTags;
    if intersection == {} then None
    else if |intersection| == 1 then
      SingletonMember(intersection);
      var tag :| tag in intersection;
      Some(SingularWarning(tag))
    else
      Some(PluralWarning(QuotedList(Sorted(intersection))))
  }

  /**
   The tag list of the plural warning: every common tag exactly once, in
   strictly ascending `String.compareTo` order, and nothing else.
   */
  lemma PluralWarningTags(options: PlatformOptions)
    requires |options.includeTags * options.excludeTags| >= 2
    ensures var tags := Sorted(options.includeTags * options.excludeTags);
      && ValidateOptions(options) == Some(PluralWarning(QuotedList(tags)))
      && |tags| == |options.includeTags * options.excludeTags|
      && (forall t :: t in tags <==> t in options.includeTags && t in options.excludeTags)
      && (forall i, j :: 0 <= i < j < |tags| ==> Below(tags[i], tags[j]) && tags[i] != tags[j])
  {
  }

  /** A freshly constructed framework has no tags, so it never warns. */
  lemma NewFrameworkDoesNotWarn(filter: TestFilter, flag: bool, dryRun: bool)
    ensures ValidateOptions(NewFramework(filter, flag, dryRun).options) == None
  {
  }

  /**
   The part of `getProcessorFactory` after the Java-version check: the tag
   check may log a warning but never stops the factory from being built from
   the filter, the options as they are, and the dry-run value.
   */
  function ProcessorFactory(fw: Framework): (result: (PlatformSpec, Option<string>))
    ensures result.1 == ValidateOptions(fw.options)
    ensures result.0.filter == fw.filter && result.0.dryRun == fw.dryRun
    ensures result.0.includeEngines == fw.options.includeEngines && result.0.excludeEngines == fw.options.excludeEngines
    ensures result.0.includeTags == fw.options.includeTags && result.0.excludeTags == fw.options.excludeTags
  {
    var warning := ValidateOptions(fw.options);
    (PlatformSpec(fw.filter, fw.options.includeEngines, fw.options.excludeEngines,
                  fw.options.includeTags, fw.options.excludeTags, fw.dryRun), warning)
  }

  /** A copy with new filters builds the same factory except for the filter, with the same warning. */
  lemma CopyBuildsSameFactory(fw: Framework, newFilter: TestFilter)
    ensures ProcessorFactory(CopyWithFilters(fw, newFilter)).0 == ProcessorFactory(fw).0.(filter := newFilter)
    ensures ProcessorFactory(CopyWithFilters(fw, newFilter)).1 == ProcessorFactory(fw).1
  {
  }
}
