/// The flag-conflict checks that the `inspect`, `create`, `download`,
/// `remove`, `upload` and `get` handlers of conans/client/command.py run on
/// their parsed arguments before calling into the API. Each check either
/// raises a `ConanException` (here: `Failure` with its message) or yields
/// the request the handler goes on to make.
///
/// What `argparse` leaves in the namespace is typed per flag: `None` or a
/// string for a single-value flag, `None` or a list for an `Extender` flag,
/// a `bool` for a `store_true` flag. Parsing references is not part of this
/// model: whether `PkgReference.loads` accepted the text is an input
/// (`pref`), and so is the result of `check_valid_ref`.
module FlagChecks {
  import opened Common

  /** Python truthiness of a value that is either `None` or a list. */
  predicate NonEmpty(o: Option<seq<string>>) {
    o.Some? && o.value != []
  }

  /** A recipe reference as the reference parser returns it, with the text its `repr` gives. */
  datatype RecipeRef = RecipeRef(name: string, version: string, user: Option<string>,
                                 revision: Option<string>, repr: string)

  /** A package reference (`recipe:package_id#revision`), with the text its `repr` gives. */
  datatype PkgRef = PkgRef(ref: RecipeRef, packageId: string, revision: Option<string>, repr: string)

  // ---------------------------------------------------------------- inspect

  datatype InspectArgs = InspectArgs(raw: Option<string>, attribute: Option<seq<string>>, json: Option<string>)

  /** The attributes `inspect` asks the API for, and whether it asks quietly. */
  datatype InspectRequest = InspectRequest(attributes: Option<seq<string>>, quiet: bool)

  const RawWithAttribute := "Argument '--raw' is incompatible with '-a'"
  const RawWithJson := "Argument '--raw' is incompatible with '--json'"

  /**
   * `--raw` cannot be combined with a non-empty `-a` or with `--json` (the
   * `-a` conflict is the one reported when both apply); otherwise `--raw`
   * names the single attribute asked for, quietly.
   */
  function CheckInspect(args: InspectArgs): (r: Result<InspectRequest, string>)
    ensures r.Failure? <==> Given(args.raw) && (NonEmpty(args.attribute) || Given(args.json))
    ensures r.Failure? ==> r.error == (if NonEmpty(args.attribute) then RawWithAttribute else RawWithJson)
    ensures r.Success? ==> r.value.quiet == Given(args.raw)
    ensures r.Success? && Given(args.raw) ==> r.value.attributes == Some([args.raw.value])
    ensures r.Success? && !Given(args.raw) ==> r.value.attributes == args.attribute
  {
    if Given(args.raw) && NonEmpty(args.attribute) then Failure(RawWithAttribute)
    else if Given(args.raw) && Given(args.json) then Failure(RawWithJson)
    else
      var attributes := if Given(args.raw) then Some([args.raw.value]) else args.attribute;
      Success(InspectRequest(attributes, Given(args.raw)))
  }

  /** `--raw name -a` (an `-a` with no value leaves an empty list) is accepted. */
  lemma InspectBareAttributeAccepted(raw: string)
    requires raw != ""
    ensures CheckInspect(InspectArgs(Some(raw), Some([]), None)) == Success(InspectRequest(Some([raw]), true))
  {
  }

  // ----------------------------------------------------------------- create

  /** The reference text and the user and channel the reference parser found in it. */
  datatype CreateArgs = CreateArgs(reference: Option<string>, user: Option<string>, channel: Option<string>,
                                   testFolder: Option<string>)

  /** What `create` passes as `test_folder`: `None`, `False` (skip the test stage) or a folder name. */
  datatype TestFolder = DefaultTestFolder | SkipTestStage | TestFolderNamed(name: string)

  /**
   * A reference naming a user without a channel, or a channel without a
   * user, is refused; `--test-folder None` (the string) skips the tests.
   */
  function CheckCreate(args: CreateArgs): (r: Result<TestFolder, string>)
    ensures r.Failure? <==> Given(args.user) != Given(args.channel)
    ensures r.Failure? ==>
              r.error == "Invalid parameter '" + TextOf(args.reference)
                         + "', specify the full reference or user/channel"
    ensures r.Success? ==> (r.value == SkipTestStage <==> args.testFolder == Some("None"))
    ensures r.Success? ==> (r.value == DefaultTestFolder <==> args.testFolder.None?)
    ensures r.Success? && args.testFolder.Some? && args.testFolder.value != "None" ==>
              r.value == TestFolderNamed(args.testFolder.value)
  {
    if (Given(args.user) || Given(args.channel)) && !(Given(args.user) && Given(args.channel)) then
      Failure("Invalid parameter '" + TextOf(args.reference) + "', specify the full reference or user/channel")
    else if args.testFolder == Some("None") then Success(SkipTestStage)
    else if args.testFolder.None? then Success(DefaultTestFolder)
    else Success(TestFolderNamed(args.testFolder.value))
  }

  // --------------------------------------------------------- download / get

  const PackageTwice := "Use a full package reference (preferred) or the `--package` command argument, but not both."

  /** The recipe text `download` sends for a full package reference. */
  function DownloadReference(ref: RecipeRef): (r: string)
    ensures ref.user.Some? ==> r == ref.repr
    ensures ref.user.None? ==> '@' in r
    ensures ref.user.None? && !Given(ref.revision) ==> r == ref.repr + "@"
    ensures ref.user.None? && Given(ref.revision) ==> r == ref.name + "/" + ref.version + "@#" + ref.revision.value
    ensures ref.user.None? && Given(ref.revision) ==>
              |r| > |ref.revision.value| && r[|r| - |ref.revision.value| - 1..] == "#" + ref.revision.value
  {
    if ref.user.None? then
      if Given(ref.revision) then ref.name + "/" + ref.version + "@#" + ref.revision.value
      else ref.repr + "@"
    else ref.repr
  }

  /** `package_id#revision`, or the bare id when the package has no revision. */
  function PackageText(pref: PkgRef): (r: string)
    ensures StartsWith(r, pref.packageId)
    ensures |r| > |pref.packageId| <==> Given(pref.revision)
    ensures Given(pref.revision) ==> r[|pref.packageId|..] == "#" + pref.revision.value
  {
    if Given(pref.revision) then pref.packageId + "#" + pref.revision.value else pref.packageId
  }

  datatype DownloadArgs = DownloadArgs(reference: string, package: Option<seq<string>>)

  /** The reference and package list `download` asks for, and whether it warns about `--package`. */
  datatype DownloadRequest = DownloadRequest(reference: string, packages: Option<seq<string>>, warnsDeprecated: bool)

  /**
   * A full package reference and `--package` together are refused. With a
   * full reference the package comes from it; otherwise the reference is
   * used as written, `--package` supplies the packages and its use draws
   * a deprecation warning.
   */
  function CheckDownload(args: DownloadArgs, pref: Option<PkgRef>): (r: Result<DownloadRequest, string>)
    ensures r.Failure? <==> pref.Some? && NonEmpty(args.package)
    ensures r.Failure? ==> r.error == PackageTwice
    ensures r.Success? && pref.Some? ==>
              r.value == DownloadRequest(DownloadReference(pref.value.ref), Some([PackageText(pref.value)]), false)
    ensures r.Success? && pref.None? ==>
              r.value == DownloadRequest(args.reference, args.package, NonEmpty(args.package))
  {
    if pref.None? then Success(DownloadRequest(args.reference, args.package, NonEmpty(args.package)))
    else if NonEmpty(args.package) then Failure(PackageTwice)
    else Success(DownloadRequest(DownloadReference(pref.value.ref), Some([PackageText(pref.value)]), false))
  }

  datatype GetArgs = GetArgs(reference: string, package: Option<string>)

  /** The reference and package id `get` looks up, and whether it warns about `--package`. */
  datatype GetRequest = GetRequest(reference: string, packageId: Option<string>, warnsDeprecated: bool)

  /** The same rule as `download`, with a single `--package` id and no revision handling. */
  function CheckGet(args: GetArgs, pref: Option<PkgRef>): (r: Result<GetRequest, string>)
    ensures r.Failure? <==> pref.Some? && Given(args.package)
    ensures r.Failure? ==> r.error == PackageTwice
    ensures r.Success? && pref.Some? ==>
              r.value == GetRequest(pref.value.ref.repr, Some(pref.value.packageId), false)
    ensures r.Success? && pref.None? ==> r.value == GetRequest(args.reference, args.package, Given(args.package))
  {
    if pref.None? then Success(GetRequest(args.reference, args.package, Given(args.package)))
    else if Given(args.package) then Failure(PackageTwice)
    else Success(GetRequest(pref.value.ref.repr, Some(pref.value.packageId), false))
  }

  // ----------------------------------------------------------------- remove

  datatype RemoveArgs = RemoveArgs(patternOrReference: Option<string>, builds: Option<seq<string>>,
                                   packages: Option<seq<string>>, query: Option<string>, systemReqs: bool)

  /** The API call `remove` ends in. */
  datatype RemoveRequest =
    | RemoveSystemReqs(reference: string)
    | RemoveSystemReqsByPattern(pattern: string)
    | RemovePackages(pattern: string, packages: Option<seq<string>>, builds: Option<seq<string>>, query: Option<string>)

  const QueryWithPackages := "'-q' and '-p' parameters can't be used at the same time"
  const QueryWithBuilds := "'-q' and '-b' parameters can't be used at the same time"
  const SystemReqsWithPackages := "'-t' and '-p' parameters can't be used at the same time"
  const NoSystemReqsPattern := "Please specify a valid pattern or reference to be cleaned"
  const NoRemovePattern := "Please specify a pattern to be removed (\"*\" for all)"
  const PackageIdTwice := "Use package ID only as -p argument or reference, not both"

  /** The conflicts `remove` reports, in the order it checks them. */
  function RemoveConflict(args: RemoveArgs, pref: Option<PkgRef>): Option<string> {
    if args.packages.Some? && Given(args.query) then Some(QueryWithPackages)
    else if args.builds.Some? && Given(args.query) then Some(QueryWithBuilds)
    else if args.systemReqs && NonEmpty(args.packages) then Some(SystemReqsWithPackages)
    else if args.systemReqs && !Given(args.patternOrReference) then Some(NoSystemReqsPattern)
    else if !args.systemReqs && !Given(args.patternOrReference) then Some(NoRemovePattern)
    else if !args.systemReqs && pref.Some? && NonEmpty(args.packages) then Some(PackageIdTwice)
    else None
  }

  /**
   * `remove`: `-q` cannot go with `-p` or `-b` (given at all, even
   * without values), `-t` cannot go with package ids, a pattern is
   * required, and a full package reference cannot go with `-p` ids.
   */
  function CheckRemove(args: RemoveArgs, validRef: bool, pref: Option<PkgRef>): (r: Result<RemoveRequest, string>)
    ensures r.Failure? <==> RemoveConflict(args, pref).Some?
    ensures r.Failure? ==> r.error == RemoveConflict(args, pref).value
    ensures r.Success? && args.systemReqs ==>
              r.value == (if validRef then RemoveSystemReqs(args.patternOrReference.value)
                          else RemoveSystemReqsByPattern(args.patternOrReference.value))
    ensures r.Success? && !args.systemReqs && pref.Some? ==>
              r.value == RemovePackages(pref.value.ref.repr, Some([pref.value.packageId]), args.builds, args.query)
    ensures r.Success? && !args.systemReqs && pref.None? ==>
              r.value == RemovePackages(args.patternOrReference.value, args.packages, args.builds, args.query)
  {
    if args.packages.Some? && Given(args.query) then Failure(QueryWithPackages)
    else if args.builds.Some? && Given(args.query) then Failure(QueryWithBuilds)
    else if args.systemReqs then
      if NonEmpty(args.packages) then Failure(SystemReqsWithPackages)
      else if !Given(args.patternOrReference) then Failure(NoSystemReqsPattern)
      else if validRef then Success(RemoveSystemReqs(args.patternOrReference.value))
      else Success(RemoveSystemReqsByPattern(args.patternOrReference.value))
    else if !Given(args.patternOrReference) then Failure(NoRemovePattern)
    else
      var pattern := if pref.Some? then pref.value.ref.repr else args.patternOrReference.value;
      var packages := if pref.Some? then Some([pref.value.packageId]) else args.packages;
      if pref.Some? && NonEmpty(args.packages) then Failure(PackageIdTwice)
      else Success(RemovePackages(pattern, packages, args.builds, args.query))
  }

  /**
   * A bare `-p` (an empty list) conflicts with `-q`, which tests for its
   * presence, but not with `-t`, which tests for ids.
   */
  lemma RemoveBarePackagesFlag(pattern: string, query: string, validRef: bool)
    requires pattern != "" && query != ""
    ensures CheckRemove(RemoveArgs(Some(pattern), None, Some([]), Some(query), false), validRef, None)
              == Failure(QueryWithPackages)
    ensures CheckRemove(RemoveArgs(Some(pattern), None, Some([]), None, true), validRef, None).Success?
  {
  }

  // ----------------------------------------------------------------- upload

  datatype UploadArgs = UploadArgs(patternOrReference: string, query: Option<string>, force: bool, skipUpload: bool)

  datatype UploadPolicy = PolicyForce | PolicySkip | NoPolicy

  /** The pattern `upload` sends and the policy it chooses. */
  datatype UploadRequest = UploadRequest(pattern: string, policy: UploadPolicy)

  const QueryWithFullReference := "'--query' argument cannot be used together with full reference"
  const SkipWithForce := "'--skip-upload' argument cannot be used together with '--force'"

  /**
   * `upload`: `--query` cannot go with a full package reference and
   * `--force` cannot go with `--skip-upload`; otherwise the policy is
   * FORCE for `--force`, SKIP for `--skip-upload` and none for neither.
   */
  function CheckUpload(args: UploadArgs, pref: Option<PkgRef>): (r: Result<UploadRequest, string>)
    ensures r.Failure? <==> (pref.Some? && Given(args.query)) || (args.force && args.skipUpload)
    ensures r.Failure? ==>
              r.error == (if pref.Some? && Given(args.query) then QueryWithFullReference else SkipWithForce)
    ensures r.Success? ==> r.value.pattern == (if pref.Some? then pref.value.repr else args.patternOrReference)
    ensures r.Success? ==> (r.value.policy == PolicyForce <==> args.force)
    ensures r.Success? ==> (r.value.policy == PolicySkip <==> args.skipUpload)
  {
    var reference := if pref.Some? then pref.value.repr else args.patternOrReference;
    if pref.Some? && Given(args.query) then Failure(QueryWithFullReference)
    else if args.force && args.skipUpload then Failure(SkipWithForce)
    else
      var policy := if args.force then PolicyForce else if args.skipUpload then PolicySkip else NoPolicy;
      Success(UploadRequest(reference, policy))
  }
}
