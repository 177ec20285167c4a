/**
 * The effect of processing one module template, on values: the structural
 * rewrites of an artifact element, the per-artifact step of
 * `processArtifacts`, the whole run over the artifact list in document order,
 * and the version step of `processModuleVersion`.
 */
module Descriptor {
  import opened Wrappers
  import opened Placeholders
  import opened Resolution

  /** An artifact element with its `name` attribute: (element name, attribute name, attribute value). */
  datatype NodeValue = NodeValue(elementName: string, attrName: string, attrValue: string)

  /**
   * The subclass hook `processArtifact`, one per run: the fat installer embeds
   * the artifact under a file name it chooses, the thin installer keeps a
   * coordinate string it chooses; both may look at the artifact and its jandex flag.
   */
  datatype Packaging =
    | Fat(finalFileName: (MavenArtifact, bool) -> string)
    | Thin(resolvedCoords: (MavenArtifact, bool) -> string)

  /** One `plugin.processSchemas(groupId, artifactPath)` call. */
  datatype Notice = Notice(groupId: string, path: Option<string>)

  /** `updateFatArtifact(f)` on an element's value. */
  function FatRewrite(n: NodeValue, f: string): NodeValue {
    NodeValue("resource-root", "path", f)
  }

  /** `updateThinArtifact(c)` on an element's value. */
  function ThinRewrite(n: NodeValue, c: string): NodeValue {
    n.(attrValue := c)
  }

  /** The rewrite the configured hook applies to an element resolved to `a`. */
  function Installed(p: Packaging, n: NodeValue, a: MavenArtifact, jandex: bool): NodeValue {
    match p
    case Fat(fileName) => FatRewrite(n, fileName(a, jandex))
    case Thin(coordsOf) => ThinRewrite(n, coordsOf(a, jandex))
  }

  /**
   * One iteration of `processArtifacts` on an element: decode its `name`,
   * resolve it on a fresh reference, then rewrite it and notify the schema
   * processing with the artifact's group and path.
   */
  function ArtifactStep(env: Setup, p: Packaging, moduleName: string, n: NodeValue)
    : Result<(NodeValue, Notice), Failure>
  {
    var d := DecodeName(n.attrValue, env.versionProps);
    var r := Fetch(env, d.coords, moduleName, None).1;
    if r.Err? then Err(r.error)
    else Ok((Installed(p, n, r.value, d.jandex), Notice(r.value.groupId, r.value.path)))
  }

  /** The artifact list after a run, the notifications sent, and the exception that stopped it. */
  datatype Run = Run(nodes: seq<NodeValue>, notices: seq<Notice>, failure: Option<Failure>)

  /**
   * `processArtifacts` over a list of elements, first to last; the first
   * exception stops the run and leaves the rest of the list as it was.
   */
  function ProcessAll(env: Setup, p: Packaging, moduleName: string, vs: seq<NodeValue>): Run
    decreases |vs|
  {
    if vs == [] then Run([], [], None)
    else
      match ArtifactStep(env, p, moduleName, vs[0])
      case Err(e) => Run(vs, [], Some(e))
      case Ok((v, notice)) =>
        var rest := ProcessAll(env, p, moduleName, vs[1..]);
        Run([v] + rest.nodes, [notice] + rest.notices, rest.failure)
  }

  /**
   * The first `|done|` elements of `vs` each stepped successfully, into the
   * corresponding element of `done` and notification of `sent`.
   */
  ghost predicate StepsAgree(env: Setup, p: Packaging, moduleName: string,
                             vs: seq<NodeValue>, done: seq<NodeValue>, sent: seq<Notice>)
  {
    && |done| == |sent| <= |vs|
    && forall j :: 0 <= j < |done| ==> ArtifactStep(env, p, moduleName, vs[j]) == Ok((done[j], sent[j]))
  }

  /** Dropping the first element of all three lists keeps them in agreement. */
  lemma StepsAgreeTail(env: Setup, p: Packaging, moduleName: string,
                       vs: seq<NodeValue>, done: seq<NodeValue>, sent: seq<Notice>)
    requires StepsAgree(env, p, moduleName, vs, done, sent) && done != []
    ensures StepsAgree(env, p, moduleName, vs[1..], done[1..], sent[1..])
  {
    forall j | 0 <= j < |done[1..]|
      ensures ArtifactStep(env, p, moduleName, vs[1..][j]) == Ok((done[1..][j], sent[1..][j]))
    {
      assert vs[1..][j] == vs[j + 1];
    }
  }

  /** Stepping every element successfully, first to last, is the recursive run. */
  lemma {:induction false} ProcessAllCompleted(env: Setup, p: Packaging, moduleName: string,
                                               vs: seq<NodeValue>, done: seq<NodeValue>, sent: seq<Notice>)
    requires StepsAgree(env, p, moduleName, vs, done, sent) && |done| == |vs|
    ensures ProcessAll(env, p, moduleName, vs) == Run(done, sent, None)
  {
    if done != [] {
      StepsAgreeTail(env, p, moduleName, vs, done, sent);
      ProcessAllCompleted(env, p, moduleName, vs[1..], done[1..], sent[1..]);
      assert done == [done[0]] + done[1..] && sent == [sent[0]] + sent[1..];
    }
  }

  /**
   * Stepping the elements first to last until one throws is the recursive
   * run: the earlier elements rewritten, the rest as they were, and that
   * element's exception.
   */
  lemma {:induction false} ProcessAllStopped(env: Setup, p: Packaging, moduleName: string,
                                             vs: seq<NodeValue>, done: seq<NodeValue>, sent: seq<Notice>, e: Failure)
    requires StepsAgree(env, p, moduleName, vs, done, sent) && |done| < |vs|
    requires ArtifactStep(env, p, moduleName, vs[|done|]) == Err(e)
    ensures ProcessAll(env, p, moduleName, vs) == Run(done + vs[|done|..], sent, Some(e))
  {
    if done != [] {
      StepsAgreeTail(env, p, moduleName, vs, done, sent);
      assert vs[1..][|done[1..]|] == vs[|done|];
      ProcessAllStopped(env, p, moduleName, vs[1..], done[1..], sent[1..], e);
      assert vs[1..][|done[1..]|..] == vs[|done|..];
      assert done == [done[0]] + done[1..] && sent == [sent[0]] + sent[1..];
    }
  }

  /**
   * `processModuleVersion` on the root `version` attribute (None when absent):
   * its new value, or the exception of the full-coordinate lookup.
   */
  function VersionStep(env: Setup, version: Option<string>): Result<Option<string>, Failure> {
    if version.None? || !IsPlaceholder(version.value) then Ok(version)
    else
      var name := VersionKey(Body(version.value));
      match CoordsOf(env, name)
      case Found(a) => Ok(Some(a.version))
      case NotFound => Ok(version)
      case Invalid => Err(VersionCoordinatesFailed(name))
  }

  // ---------------------------------------------------------------------------
  // Rewrites

  /** Fat mode renames the element and its attribute and stores the file name. */
  lemma FatRenames(n: NodeValue, f: string)
    ensures FatRewrite(n, f).elementName == "resource-root"
    ensures FatRewrite(n, f).attrName == "path"
    ensures FatRewrite(n, f).attrValue == f
  {
  }

  /** Thin mode keeps both names and replaces only the value. */
  lemma ThinKeepsNames(n: NodeValue, c: string)
    ensures ThinRewrite(n, c).elementName == n.elementName
    ensures ThinRewrite(n, c).attrName == n.attrName
    ensures ThinRewrite(n, c).attrValue == c
  {
  }

  // ---------------------------------------------------------------------------
  // The run over the artifact list

  /**
   * The run keeps every element in its place, sends at most one notification
   * per element, and one for every element when nothing threw.
   */
  lemma {:induction false} ProcessAllShape(env: Setup, p: Packaging, moduleName: string, vs: seq<NodeValue>)
    ensures var run := ProcessAll(env, p, moduleName, vs);
      && |run.nodes| == |vs|
      && |run.notices| <= |vs|
      && (run.failure.None? ==> |run.notices| == |vs|)
  {
    if vs != [] && ArtifactStep(env, p, moduleName, vs[0]).Ok? {
      ProcessAllShape(env, p, moduleName, vs[1..]);
    }
  }

  /**
   * Document order: the k-th notification comes from the k-th element, which
   * was resolved and rewritten before it was sent.
   */
  lemma {:induction false} ProcessAllInOrder(env: Setup, p: Packaging, moduleName: string, vs: seq<NodeValue>, k: nat)
    requires k < |ProcessAll(env, p, moduleName, vs).notices|
    ensures var run := ProcessAll(env, p, moduleName, vs);
      k < |vs| && k < |run.nodes| &&
      ArtifactStep(env, p, moduleName, vs[k]) == Ok((run.nodes[k], run.notices[k]))
  {
    var step := ArtifactStep(env, p, moduleName, vs[0]);
    ProcessAllShape(env, p, moduleName, vs[1..]);
    if k > 0 {
      ProcessAllInOrder(env, p, moduleName, vs[1..], k - 1);
    }
  }

  /**
   * No rollback and no skipping past a failure: when an element throws, every
   * element before it has been rewritten and notified, it and all after it are
   * left untouched, and its exception is the run's.
   */
  lemma {:induction false} ProcessAllStopsAtFailure(env: Setup, p: Packaging, moduleName: string, vs: seq<NodeValue>)
    requires ProcessAll(env, p, moduleName, vs).failure.Some?
    ensures var run := ProcessAll(env, p, moduleName, vs);
      var k := |run.notices|;
      && k < |vs| && |run.nodes| == |vs|
      && ArtifactStep(env, p, moduleName, vs[k]) == Err(run.failure.value)
      && run.nodes[k..] == vs[k..]
  {
    ProcessAllShape(env, p, moduleName, vs);
    var step := ArtifactStep(env, p, moduleName, vs[0]);
    if step.Ok? {
      var rest := ProcessAll(env, p, moduleName, vs[1..]);
      ProcessAllStopsAtFailure(env, p, moduleName, vs[1..]);
      var run := ProcessAll(env, p, moduleName, vs);
      assert run.nodes[|run.notices|..] == rest.nodes[|rest.notices|..];
      assert vs[|run.notices|..] == vs[1..][|rest.notices|..];
    }
  }

  /** A run succeeds exactly when every element's step succeeds. */
  lemma {:induction false} ProcessAllSucceedsIff(env: Setup, p: Packaging, moduleName: string, vs: seq<NodeValue>)
    ensures ProcessAll(env, p, moduleName, vs).failure.None?
        <==> forall k :: 0 <= k < |vs| ==> ArtifactStep(env, p, moduleName, vs[k]).Ok?
  {
    if vs != [] {
      ProcessAllSucceedsIff(env, p, moduleName, vs[1..]);
      assert forall k :: 1 <= k < |vs| ==> vs[k] == vs[1..][k - 1];
    }
  }

  /**
   * An element whose placeholder key is missing from the version table is
   * not skipped: its step throws "Unknown artifact in module".
   */
  lemma UnknownKeyIsFatal(env: Setup, p: Packaging, moduleName: string, n: NodeValue)
    requires IsPlaceholder(n.attrValue)
    requires ArtifactKey(Body(n.attrValue)) !in env.versionProps
    ensures ArtifactStep(env, p, moduleName, n) == Err(UnknownArtifact(moduleName))
  {
  }

  /**
   * A thin run over one element `name="${k}"` whose key the version table maps
   * to a coordinate that resolves stores the installer's coordinate string
   * in place of the placeholder and notifies the artifact's group and path.
   */
  lemma ThinScenario(env: Setup, coordsOf: (MavenArtifact, bool) -> string, moduleName: string,
                     k: string, a: MavenArtifact, b: MavenArtifact)
    requires '?' !in k && k in env.versionProps
    requires CoordsOf(env, env.versionProps[k]) == Found(a) && env.resolve(a) == Some(b)
    ensures ProcessAll(env, Thin(coordsOf), moduleName, [NodeValue("artifact", "name", "${" + k + "}")])
         == Run([NodeValue("artifact", "name", coordsOf(b, false))], [Notice(b.groupId, b.path)], None)
  {
    DecodeBareKey(k, env.versionProps);
    var vs := [NodeValue("artifact", "name", "${" + k + "}")];
    assert vs[1..] == [];
  }

  /**
   * A fat run over the same element renames it to a `resource-root` whose
   * `path` is the installer's file name.
   */
  lemma FatScenario(env: Setup, fileName: (MavenArtifact, bool) -> string, moduleName: string,
                    k: string, a: MavenArtifact, b: MavenArtifact)
    requires '?' !in k && k in env.versionProps
    requires CoordsOf(env, env.versionProps[k]) == Found(a) && env.resolve(a) == Some(b)
    ensures ProcessAll(env, Fat(fileName), moduleName, [NodeValue("artifact", "name", "${" + k + "}")])
         == Run([NodeValue("resource-root", "path", fileName(b, false))], [Notice(b.groupId, b.path)], None)
  {
    DecodeBareKey(k, env.versionProps);
    var vs := [NodeValue("artifact", "name", "${" + k + "}")];
    assert vs[1..] == [];
  }

  /**
   * An element `name="${k}"` whose key is missing from the version table stops
   * the run with "Unknown artifact in module": nothing is rewritten and
   * nothing is notified.
   */
  lemma MissingKeyScenario(env: Setup, p: Packaging, moduleName: string, k: string)
    requires '?' !in k && k !in env.versionProps
    ensures var vs := [NodeValue("artifact", "name", "${" + k + "}")];
      ProcessAll(env, p, moduleName, vs) == Run(vs, [], Some(UnknownArtifact(moduleName)))
  {
    DecodeBareKey(k, env.versionProps);
  }

  // ---------------------------------------------------------------------------
  // The version attribute

  /**
   * The version attribute changes only when it is a placeholder whose name
   * the full-coordinate lookup resolves, and then to that artifact's version;
   * an absent attribute stays absent.
   */
  lemma VersionChangesOnlyWhenResolved(env: Setup, version: Option<string>)
    ensures var r := VersionStep(env, version);
      r.Ok? && r.value != version ==>
        && version.Some? && IsPlaceholder(version.value)
        && CoordsOf(env, VersionKey(Body(version.value))).Found?
        && r.value == Some(CoordsOf(env, VersionKey(Body(version.value))).artifact.version)
    ensures version.None? ==> VersionStep(env, version) == Ok(None)
  {
  }

  /** A placeholder whose name the lookup does not know leaves the attribute as it was. */
  lemma VersionAbsentKeySkips(env: Setup, k: string)
    requires '?' !in k && CoordsOf(env, k).NotFound?
    ensures VersionStep(env, Some("${" + k + "}")) == Ok(Some("${" + k + "}"))
  {
    BodyOfWrapped(k);
  }

  /** `${k?opts}` with a non-empty, `?`-free `k` looks up `k`, exactly as `${k}` does. */
  lemma VersionOptionsAreTrimmed(env: Setup, k: string, opts: string)
    requires '?' !in k && k != ""
    ensures VersionStep(env, Some("${" + k + "?" + opts + "}")).Ok?
        <==> VersionStep(env, Some("${" + k + "}")).Ok?
    ensures match CoordsOf(env, k)
      case Found(a) =>
        VersionStep(env, Some("${" + k + "?" + opts + "}")) == VersionStep(env, Some("${" + k + "}"))
          == Ok(Some(a.version))
      case NotFound => VersionStep(env, Some("${" + k + "?" + opts + "}")) == Ok(Some("${" + k + "?" + opts + "}"))
      case Invalid =>
        VersionStep(env, Some("${" + k + "?" + opts + "}")) == VersionStep(env, Some("${" + k + "}"))
          == Err(VersionCoordinatesFailed(k))
  {
    var body := k + "?" + opts;
    BodyOfWrapped(body);
    assert "${" + k + "?" + opts + "}" == "${" + body + "}";
    BodyOfWrapped(k);
    VersionKeyCut(k, opts);
    assert VersionKey(Body("${" + k + "?" + opts + "}")) == k;
    assert VersionKey(Body("${" + k + "}")) == k;
  }

  /** `${?opts}`: a leading `?` is not a cut, so the whole `?opts` is the name looked up. */
  lemma VersionLeadingQuestionMark(env: Setup, opts: string)
    ensures var v := "${" + "?" + opts + "}";
      VersionStep(env, Some(v)) == match CoordsOf(env, "?" + opts)
        case Found(a) => Ok(Some(a.version))
        case NotFound => Ok(Some(v))
        case Invalid => Err(VersionCoordinatesFailed("?" + opts))
  {
    var body := "?" + opts;
    assert "${" + "?" + opts + "}" == "${" + body + "}";
    BodyOfWrapped(body);
    assert body[0] == '?';
    VersionKeyVersusArtifactKey(body);
    assert VersionKey(Body("${" + body + "}")) == body;
  }
}
