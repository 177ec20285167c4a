/**
 * Turning a decoded coordinate string into a Maven artifact: the full-coordinate
 * lookup (`getUnresolvedArtifact`) and the lazy, memoised resolution behind it
 * (`getMavenArtifact`, `hasMavenArtifact`).
 */
module Resolution {
  import opened Wrappers
  import opened Placeholders

  /** A Maven artifact; the resolver fills in the version and the local path. */
  datatype MavenArtifact = MavenArtifact(
    groupId: string,
    artifactId: string,
    version: string,
    classifier: string,
    extension: string,
    path: Option<string>)

  /** What `Utils.toArtifactCoords` gives: an artifact, null, or a thrown ProvisioningException. */
  datatype Coords = Found(artifact: MavenArtifact) | NotFound | Invalid

  /**
   * The exceptions the template processor raises. The first three name what
   * their Java message names; the key in `VersionCoordinatesFailed` is the
   * model's own label, since that exception is `Utils.toArtifactCoords`'
   * own, rethrown unwrapped, and its message need not mention the key.
   */
  datatype Failure =
    | FullCoordinatesFailed(coords: string)        // "Failed to resolve full coordinates for " + coordsStr
    | UnknownArtifact(moduleName: string)              // "Unknown artifact in module " + template name
    | ArtifactResolutionFailed(artifact: MavenArtifact)  // "Failed to resolve artifact " + artifact
    | VersionCoordinatesFailed(name: string)       // ProvisioningException of processModuleVersion, unwrapped

  /**
   * Everything one processing run is configured with: the version table, the
   * two independent channel flags, and the two external collaborators.
   * `toArtifactCoords(props, coords, optional, channelArtifactResolution,
   * requireChannel)` stands for `Utils.toArtifactCoords`; `resolve` stands for
   * the Maven resolver, giving the filled-in artifact or None when it throws.
   */
  datatype Setup = Setup(
    versionProps: VersionProps,
    channelArtifactResolution: bool,
    requireChannel: bool,
    toArtifactCoords: (VersionProps, string, bool, bool, bool) -> Coords,
    resolve: MavenArtifact -> Option<MavenArtifact>)

  /** The full-coordinate lookup the setup performs for one coordinate string. */
  function CoordsOf(env: Setup, coords: string): Coords {
    env.toArtifactCoords(env.versionProps, coords, false, env.channelArtifactResolution, env.requireChannel)
  }

  /**
   * `getUnresolvedArtifact`: no coordinate string gives null; otherwise the
   * full-coordinate lookup, whose exception is wrapped with the coordinate.
   */
  function UnresolvedArtifact(env: Setup, coords: Option<string>): Result<Option<MavenArtifact>, Failure> {
    match coords
    case None => Ok(None)
    case Some(c) =>
      match CoordsOf(env, c)
      case Found(a) => Ok(Some(a))
      case NotFound => Ok(None)
      case Invalid => Err(FullCoordinatesFailed(c))
  }

  /**
   * `getMavenArtifact` on a reference whose `artifact` field holds `cached`
   * (None for null): the new value of the field, and what the call returns
   * or throws. The field is set before the resolver runs, so it stays set
   * when the resolver throws.
   */
  function Fetch(env: Setup, coords: Option<string>, moduleName: string, cached: Option<MavenArtifact>)
    : (Option<MavenArtifact>, Result<MavenArtifact, Failure>)
  {
    if cached.Some? then (cached, Ok(cached.value))
    else
      match UnresolvedArtifact(env, coords)
      case Err(e) => (None, Err(e))
      case Ok(None) => (None, Err(UnknownArtifact(moduleName)))
      case Ok(Some(a)) =>
        match env.resolve(a)
        case None => (Some(a), Err(ArtifactResolutionFailed(a)))
        case Some(b) => (Some(b), Ok(b))
  }

  /**
   * Memoisation: once the field is set, a call returns exactly the cached
   * artifact and leaves the field alone, whatever the collaborators do.
   */
  lemma FetchCached(env: Setup, coords: Option<string>, moduleName: string, a: MavenArtifact)
    ensures Fetch(env, coords, moduleName, Some(a)) == (Some(a), Ok(a))
  {
  }

  /**
   * Idempotence: a second call on the state a successful first call left
   * behind returns the same artifact and changes nothing.
   */
  lemma FetchTwice(env: Setup, coords: Option<string>, moduleName: string, cached: Option<MavenArtifact>)
    requires Fetch(env, coords, moduleName, cached).1.Ok?
    ensures var (memo, r) := Fetch(env, coords, moduleName, cached);
      memo == Some(r.value) && Fetch(env, coords, moduleName, memo) == (memo, r)
  {
  }

  /**
   * No silent absence: a call that returns gives an artifact and leaves it
   * cached, so `hasMavenArtifact` can only answer true or throw.
   */
  lemma FetchNeverAbsent(env: Setup, coords: Option<string>, moduleName: string, cached: Option<MavenArtifact>)
    ensures var (memo, r) := Fetch(env, coords, moduleName, cached);
      r.Ok? ==> memo == Some(r.value)
  {
  }

  /**
   * "Unknown artifact in module" is thrown exactly when nothing was cached and
   * either the coordinate string is null or the full-coordinate lookup gives null.
   */
  lemma UnknownArtifactExactly(env: Setup, coords: Option<string>, moduleName: string, cached: Option<MavenArtifact>)
    ensures Fetch(env, coords, moduleName, cached).1 == Err(UnknownArtifact(moduleName))
        <==> cached.None? && (coords.None? || CoordsOf(env, coords.value).NotFound?)
  {
  }

  /**
   * Each wrapped failure names its culprit: the coordinate string whose lookup
   * threw, or the artifact the resolver rejected; neither leaves an artifact
   * that was not there before, except the rejected one.
   */
  lemma FailuresNameCulprit(env: Setup, coords: Option<string>, moduleName: string, cached: Option<MavenArtifact>)
    ensures var (memo, r) := Fetch(env, coords, moduleName, cached);
      && (r.Err? && r.error.FullCoordinatesFailed? ==>
            cached.None? && coords == Some(r.error.coords) && CoordsOf(env, r.error.coords).Invalid? && memo.None?)
      && (r.Err? && r.error.ArtifactResolutionFailed? ==>
            cached.None? && coords.Some? && CoordsOf(env, coords.value) == Found(r.error.artifact)
            && env.resolve(r.error.artifact).None? && memo == Some(r.error.artifact))
  {
  }

  /**
   * After the resolver throws, the field keeps the unresolved artifact, and a
   * later call returns it without resolving again.
   */
  lemma RetryAfterResolverFailure(env: Setup, c: string, moduleName: string, a: MavenArtifact)
    requires CoordsOf(env, c) == Found(a) && env.resolve(a).None?
    ensures Fetch(env, Some(c), moduleName, None) == (Some(a), Err(ArtifactResolutionFailed(a)))
    ensures Fetch(env, Some(c), moduleName, Some(a)) == (Some(a), Ok(a))
  {
  }
}
