/**
 The three public entry points of the `netacl` execution module:
 `load_term_config`, `load_filter_config` and `load_policy_config`. Each
 one normalises its list arguments, resolves the Capirca platform from the
 device grains, asks the Capirca compiler for configuration text and hands
 that text to the device-configuration call, returning its result as is.

 Neither collaborator's body is part of this model: the compiler is a
 parameter `compile` that maps a request to configuration text or to an
 error, and the device call is a parameter `apply` whose result is of an
 arbitrary type `R`, never looked into here. Each is a fixed function of its
 request: the pillar contents, the clock behind `revision_date` and the
 target device are held fixed for one call.
 */
module NetAcl {
  import opened Wrappers
  import opened Platform
  import opened Ascii

  /** A Python value as it arrives through keyword arguments, terms and filters. */
  datatype Value =
    | Null
    | Bool(b: bool)
    | Int(i: int)
    | Str(s: string)
    | List(items: seq<Value>)
    | Dict(entries: map<string, Value>)

  /** Where the compiler looks for pillar data and whether it merges it. */
  datatype PillarArgs = PillarArgs(key: string, pillarenv: Option<string>, saltenv: Option<string>, merge: bool)

  /** The revision comment the compiler embeds in the generated text. */
  datatype Revision = Revision(id: Option<string>, no: Option<int>, date: bool, dateFormat: string)

  /** The device-call flags: dry run, commit, and echo of the loaded text. */
  datatype ApplyFlags = ApplyFlags(test: bool, commit: bool, debug: bool)

  /** The source's defaults for the arguments every entry point shares. */
  const DefaultPillar := PillarArgs("acl", None, None, true)
  const DefaultRevision := Revision(None, None, true, "%Y/%m/%d")
  const DefaultFlags := ApplyFlags(false, true, false)
  const DefaultPrepend := true
  const DefaultOnlyLowerMerge := false

  // ---------------------------------------------------------------------------
  // Caller arguments
  // ---------------------------------------------------------------------------

  /**
   Arguments of `load_term_config`; `fields` are its free keyword arguments.
   A service is `Null` when not given, else one name (`Str`) or a `List` of names.
   */
  datatype TermArgs = TermArgs(
    filterName: string,
    termName: string,
    filterOptions: Option<seq<string>>,
    pillar: PillarArgs,
    revision: Revision,
    flags: ApplyFlags,
    sourceService: Value,
    destinationService: Value,
    fields: map<string, Value>)

  /** Arguments of `load_filter_config`; `kwargs` are accepted and ignored. */
  datatype FilterArgs = FilterArgs(
    filterName: string,
    filterOptions: Option<seq<string>>,
    terms: Option<seq<Value>>,
    prepend: bool,
    pillar: PillarArgs,
    onlyLowerMerge: bool,
    revision: Revision,
    flags: ApplyFlags,
    kwargs: map<string, Value>)

  /** Arguments of `load_policy_config`; `kwargs` are accepted and ignored. */
  datatype PolicyArgs = PolicyArgs(
    filters: Option<seq<Value>>,
    prepend: bool,
    pillar: PillarArgs,
    onlyLowerMerge: bool,
    revision: Revision,
    flags: ApplyFlags,
    kwargs: map<string, Value>)

  // ---------------------------------------------------------------------------
  // What the collaborators receive
  // ---------------------------------------------------------------------------

  /** The arguments of `capirca.get_term_config`. */
  datatype TermRequest = TermRequest(
    platform: string,
    filterName: string,
    termName: string,
    filterOptions: seq<string>,
    pillar: PillarArgs,
    revision: Revision,
    sourceService: Value,
    destinationService: Value,
    fields: map<string, Value>)

  /** The arguments of `capirca.get_filter_config`. */
  datatype FilterRequest = FilterRequest(
    platform: string,
    filterName: string,
    terms: seq<Value>,
    prepend: bool,
    filterOptions: seq<string>,
    pillar: PillarArgs,
    onlyLowerMerge: bool,
    revision: Revision)

  /** The arguments of `capirca.get_policy_config`. */
  datatype PolicyRequest = PolicyRequest(
    platform: string,
    filters: seq<Value>,
    prepend: bool,
    pillar: PillarArgs,
    onlyLowerMerge: bool,
    revision: Revision)

  /** The arguments of `net.load_config`, apart from the device handle. */
  datatype ApplyRequest = ApplyRequest(text: string, flags: ApplyFlags)

  /**
   How one call of an entry point ends, with what each collaborator was
   asked: a grain lookup failed before anything was called; the compiler
   raised, so the device was not contacted; or the device call ran and
   `result` is what it returned.
   */
  datatype Outcome<Q, R> =
    | GrainMissing(key: string)
    | CompileFailed(request: Q, error: string)
    | Applied(request: Q, applied: ApplyRequest, result: R)

  // ---------------------------------------------------------------------------
  // Argument normalisation
  // ---------------------------------------------------------------------------

  /** `if not xs: xs = []` on a list argument: an absent or empty list becomes the empty list. */
  function OrEmpty<T>(xs: Option<seq<T>>): (r: seq<T>)
    ensures xs.None? ==> r == []
    ensures xs.Some? ==> r == xs.value
  {
    match xs
    case None => []
    case Some(v) => v
  }

  /** Omitting a list argument and passing an empty one are the same to every entry point. */
  lemma OrEmptyAbsentIsEmpty<T>(xs: Option<seq<T>>)
    ensures OrEmpty(xs) == [] <==> xs == None || xs == Some([])
    ensures OrEmpty(Some(OrEmpty(xs))) == OrEmpty(xs)
  {
  }

  // ---------------------------------------------------------------------------
  // The shared pipeline
  // ---------------------------------------------------------------------------

  /**
   The steps every entry point takes once its request is built from the
   resolved platform: compile, then apply with the caller's flags, then
   return the device call's result.
   */
  function Dispatch<Q, R>(
    platform: Result<string, string>,
    request: string -> Q,
    compile: Q -> Result<string, string>,
    apply: ApplyRequest -> R,
    flags: ApplyFlags): (o: Outcome<Q, R>)
    ensures o.GrainMissing? <==> platform.Failure?
    ensures o.GrainMissing? ==> o.key == platform.error
    ensures !o.GrainMissing? ==> o.request == request(platform.value)
    ensures o.CompileFailed? <==> platform.Success? && compile(request(platform.value)).Failure?
    ensures o.CompileFailed? ==> o.error == compile(o.request).error
    ensures o.Applied? ==> compile(o.request) == Success(o.applied.text)
    ensures o.Applied? ==> o.applied.flags == flags && o.result == apply(o.applied)
  {
    match platform
    case Failure(key) => GrainMissing(key)
    case Success(p) =>
      var q := request(p);
      match compile(q)
      case Failure(e) => CompileFailed(q, e)
      case Success(text) =>
        var a := ApplyRequest(text, flags);
        Applied(q, a, apply(a))
  }

  // ---------------------------------------------------------------------------
  // Entry points
  // ---------------------------------------------------------------------------

  function TermRequestFor(args: TermArgs, platform: string): TermRequest {
    TermRequest(platform, args.filterName, args.termName, OrEmpty(args.filterOptions),
                args.pillar, args.revision, args.sourceService, args.destinationService, args.fields)
  }

  /** `load_term_config`: generate one term and load it on the device. */
  function LoadTermConfig<R>(
    grains: map<string, string>,
    args: TermArgs,
    compile: TermRequest -> Result<string, string>,
    apply: ApplyRequest -> R): (o: Outcome<TermRequest, R>)
    ensures o.GrainMissing? <==> ReadFacts(grains).Failure?
    ensures o.GrainMissing? ==> o.key == ReadFacts(grains).error
    ensures !o.GrainMissing? ==> o.request.platform == Resolve(ReadFacts(grains).value)
    ensures !o.GrainMissing? ==> o.request.filterOptions == OrEmpty(args.filterOptions)
    ensures !o.GrainMissing? ==>
      && o.request.filterName == args.filterName && o.request.termName == args.termName
      && o.request.pillar == args.pillar && o.request.revision == args.revision
      && o.request.sourceService == args.sourceService
      && o.request.destinationService == args.destinationService
      && o.request.fields == args.fields
    ensures o.CompileFailed? ==> compile(o.request) == Failure(o.error)
    ensures o.Applied? ==> compile(o.request) == Success(o.applied.text)
    ensures o.Applied? ==> o.applied.flags == args.flags && o.result == apply(o.applied)
    ensures !o.GrainMissing? && compile(o.request).Success? ==> o.Applied?
  {
    Dispatch(CapircaPlatform(grains), p => TermRequestFor(args, p), compile, apply, args.flags)
  }

  function FilterRequestFor(args: FilterArgs, platform: string): FilterRequest {
    FilterRequest(platform, args.filterName, OrEmpty(args.terms), args.prepend,
                  OrEmpty(args.filterOptions), args.pillar, args.onlyLowerMerge, args.revision)
  }

  /** `load_filter_config`: generate one filter and load it on the device. */
  function LoadFilterConfig<R>(
    grains: map<string, string>,
    args: FilterArgs,
    compile: FilterRequest -> Result<string, string>,
    apply: ApplyRequest -> R): (o: Outcome<FilterRequest, R>)
    ensures o.GrainMissing? <==> ReadFacts(grains).Failure?
    ensures o.GrainMissing? ==> o.key == ReadFacts(grains).error
    ensures !o.GrainMissing? ==> o.request.platform == Resolve(ReadFacts(grains).value)
    ensures !o.GrainMissing? ==>
      o.request.filterOptions == OrEmpty(args.filterOptions) && o.request.terms == OrEmpty(args.terms)
    ensures !o.GrainMissing? ==>
      && o.request.filterName == args.filterName && o.request.prepend == args.prepend
      && o.request.pillar == args.pillar && o.request.onlyLowerMerge == args.onlyLowerMerge
      && o.request.revision == args.revision
    ensures o.CompileFailed? ==> compile(o.request) == Failure(o.error)
    ensures o.Applied? ==> compile(o.request) == Success(o.applied.text)
    ensures o.Applied? ==> o.applied.flags == args.flags && o.result == apply(o.applied)
    ensures !o.GrainMissing? && compile(o.request).Success? ==> o.Applied?
  {
    Dispatch(CapircaPlatform(grains), p => FilterRequestFor(args, p), compile, apply, args.flags)
  }

  function PolicyRequestFor(args: PolicyArgs, platform: string): PolicyRequest {
    PolicyRequest(platform, OrEmpty(args.filters), args.prepend, args.pillar, args.onlyLowerMerge, args.revision)
  }

  /** `load_policy_config`: generate the whole policy and load it on the device. */
  function LoadPolicyConfig<R>(
    grains: map<string, string>,
    args: PolicyArgs,
    compile: PolicyRequest -> Result<string, string>,
    apply: ApplyRequest -> R): (o: Outcome<PolicyRequest, R>)
    ensures o.GrainMissing? <==> ReadFacts(grains).Failure?
    ensures o.GrainMissing? ==> o.key == ReadFacts(grains).error
    ensures !o.GrainMissing? ==> o.request.platform == Resolve(ReadFacts(grains).value)
    ensures !o.GrainMissing? ==> o.request.filters == OrEmpty(args.filters)
    ensures !o.GrainMissing? ==>
      && o.request.prepend == args.prepend && o.request.pillar == args.pillar
      && o.request.onlyLowerMerge == args.onlyLowerMerge && o.request.revision == args.revision
    ensures o.CompileFailed? ==> compile(o.request) == Failure(o.error)
    ensures o.Applied? ==> compile(o.request) == Success(o.applied.text)
    ensures o.Applied? ==> o.applied.flags == args.flags && o.result == apply(o.applied)
    ensures !o.GrainMissing? && compile(o.request).Success? ==> o.Applied?
  {
    Dispatch(CapircaPlatform(grains), p => PolicyRequestFor(args, p), compile, apply, args.flags)
  }

  // ---------------------------------------------------------------------------
  // Properties relating calls
  // ---------------------------------------------------------------------------

  /**
   Two calls made the same requests of the compiler and of the device and
   ended the same way. The device results are left out: `apply1` and `apply2`
   may stand for different devices, whose answers differ.
   */
  predicate SameCalls<Q(==), R>(o1: Outcome<Q, R>, o2: Outcome<Q, R>) {
    match (o1, o2)
    case (GrainMissing(k1), GrainMissing(k2)) => k1 == k2
    case (CompileFailed(q1, e1), CompileFailed(q2, e2)) => q1 == q2 && e1 == e2
    case (Applied(q1, a1, _), Applied(q2, a2, _)) => q1 == q2 && a1 == a2
    case _ => false
  }

  /** Grains enter a term load only through the resolved platform: devices that resolve alike are sent the same requests. */
  lemma TermLoadDependsOnlyOnPlatform<R>(
    g1: map<string, string>, g2: map<string, string>, args: TermArgs,
    compile: TermRequest -> Result<string, string>, apply1: ApplyRequest -> R, apply2: ApplyRequest -> R)
    requires ReadFacts(g1).Success? && ReadFacts(g2).Success?
    requires Resolve(ReadFacts(g1).value) == Resolve(ReadFacts(g2).value)
    ensures SameCalls(LoadTermConfig(g1, args, compile, apply1), LoadTermConfig(g2, args, compile, apply2))
  {
  }

  /** Devices whose grains differ only in letter case are sent the same term-load requests. */
  lemma TermLoadIgnoresGrainCase<R>(
    g1: map<string, string>, g2: map<string, string>, args: TermArgs,
    compile: TermRequest -> Result<string, string>, apply1: ApplyRequest -> R, apply2: ApplyRequest -> R)
    requires ReadFacts(g1).Success? && ReadFacts(g2).Success?
    requires var f1, f2 := ReadFacts(g1).value, ReadFacts(g2).value;
      && EqualIgnoringCase(f1.vendor, f2.vendor)
      && EqualIgnoringCase(f1.os, f2.os)
      && EqualIgnoringCase(f1.model, f2.model)
    ensures SameCalls(LoadTermConfig(g1, args, compile, apply1), LoadTermConfig(g2, args, compile, apply2))
  {
    CaseInsensitive(ReadFacts(g1).value, ReadFacts(g2).value);
  }

  /** Grains enter a filter load only through the resolved platform: devices that resolve alike are sent the same requests. */
  lemma FilterLoadDependsOnlyOnPlatform<R>(
    g1: map<string, string>, g2: map<string, string>, args: FilterArgs,
    compile: FilterRequest -> Result<string, string>, apply1: ApplyRequest -> R, apply2: ApplyRequest -> R)
    requires ReadFacts(g1).Success? && ReadFacts(g2).Success?
    requires Resolve(ReadFacts(g1).value) == Resolve(ReadFacts(g2).value)
    ensures SameCalls(LoadFilterConfig(g1, args, compile, apply1), LoadFilterConfig(g2, args, compile, apply2))
  {
  }

  /** Devices whose grains differ only in letter case are sent the same filter-load requests. */
  lemma FilterLoadIgnoresGrainCase<R>(
    g1: map<string, string>, g2: map<string, string>, args: FilterArgs,
    compile: FilterRequest -> Result<string, string>, apply1: ApplyRequest -> R, apply2: ApplyRequest -> R)
    requires ReadFacts(g1).Success? && ReadFacts(g2).Success?
    requires var f1, f2 := ReadFacts(g1).value, ReadFacts(g2).value;
      && EqualIgnoringCase(f1.vendor, f2.vendor)
      && EqualIgnoringCase(f1.os, f2.os)
      && EqualIgnoringCase(f1.model, f2.model)
    ensures SameCalls(LoadFilterConfig(g1, args, compile, apply1), LoadFilterConfig(g2, args, compile, apply2))
  {
    CaseInsensitive(ReadFacts(g1).value, ReadFacts(g2).value);
  }

  /** Grains enter a policy load only through the resolved platform: devices that resolve alike are sent the same requests. */
  lemma PolicyLoadDependsOnlyOnPlatform<R>(
    g1: map<string, string>, g2: map<string, string>, args: PolicyArgs,
    compile: PolicyRequest -> Result<string, string>, apply1: ApplyRequest -> R, apply2: ApplyRequest -> R)
    requires ReadFacts(g1).Success? && ReadFacts(g2).Success?
    requires Resolve(ReadFacts(g1).value) == Resolve(ReadFacts(g2).value)
    ensures SameCalls(LoadPolicyConfig(g1, args, compile, apply1), LoadPolicyConfig(g2, args, compile, apply2))
  {
  }

  /** Devices whose grains differ only in letter case are sent the same policy-load requests. */
  lemma PolicyLoadIgnoresGrainCase<R>(
    g1: map<string, string>, g2: map<string, string>, args: PolicyArgs,
    compile: PolicyRequest -> Result<string, string>, apply1: ApplyRequest -> R, apply2: ApplyRequest -> R)
    requires ReadFacts(g1).Success? && ReadFacts(g2).Success?
    requires var f1, f2 := ReadFacts(g1).value, ReadFacts(g2).value;
      && EqualIgnoringCase(f1.vendor, f2.vendor)
      && EqualIgnoringCase(f1.os, f2.os)
      && EqualIgnoringCase(f1.model, f2.model)
    ensures SameCalls(LoadPolicyConfig(g1, args, compile, apply1), LoadPolicyConfig(g2, args, compile, apply2))
  {
    CaseInsensitive(ReadFacts(g1).value, ReadFacts(g2).value);
  }

  /** Passing `filter_options` already normalised, omitted or empty alike, changes nothing in a term load. */
  lemma TermLoadNormalisesOptions<R>(
    grains: map<string, string>, args: TermArgs,
    compile: TermRequest -> Result<string, string>, apply: ApplyRequest -> R)
    ensures LoadTermConfig(grains, args, compile, apply)
         == LoadTermConfig(grains, args.(filterOptions := Some(OrEmpty(args.filterOptions))), compile, apply)
  {
  }

  /**
   Passing `terms` and `filter_options` already normalised changes nothing in
   a filter load, and neither do the ignored `**kwargs`.
   */
  lemma FilterLoadNormalisesLists<R>(
    grains: map<string, string>, args: FilterArgs, extra: map<string, Value>,
    compile: FilterRequest -> Result<string, string>, apply: ApplyRequest -> R)
    ensures LoadFilterConfig(grains, args, compile, apply)
         == LoadFilterConfig(grains, args.(terms := Some(OrEmpty(args.terms)),
                                           filterOptions := Some(OrEmpty(args.filterOptions)),
                                           kwargs := extra), compile, apply)
  {
  }

  /** Passing `filters` already normalised changes nothing in a policy load, and neither do the ignored `**kwargs`. */
  lemma PolicyLoadNormalisesFilters<R>(
    grains: map<string, string>, args: PolicyArgs, extra: map<string, Value>,
    compile: PolicyRequest -> Result<string, string>, apply: ApplyRequest -> R)
    ensures LoadPolicyConfig(grains, args, compile, apply)
         == LoadPolicyConfig(grains, args.(filters := Some(OrEmpty(args.filters)), kwargs := extra), compile, apply)
  {
  }

  /**
   A policy load called with every argument at its default compiles the empty
   filter list for pillar key "acl", merging pillar data with new filters
   prepended, and then commits for real: not a dry run and without echo.
   */
  lemma PolicyLoadDefaults<R>(
    grains: map<string, string>, args: PolicyArgs,
    compile: PolicyRequest -> Result<string, string>, apply: ApplyRequest -> R)
    requires args == PolicyArgs(None, DefaultPrepend, DefaultPillar, DefaultOnlyLowerMerge,
                                DefaultRevision, DefaultFlags, args.kwargs)
    ensures var o := LoadPolicyConfig(grains, args, compile, apply);
      !o.GrainMissing? ==>
        && o.request.filters == [] && o.request.prepend
        && o.request.pillar.key == "acl" && o.request.pillar.merge
        && !o.request.onlyLowerMerge && o.request.revision.date
    ensures var o := LoadPolicyConfig(grains, args, compile, apply);
      o.Applied? ==> o.applied.flags.commit && !o.applied.flags.test && !o.applied.flags.debug
  {
  }
}
