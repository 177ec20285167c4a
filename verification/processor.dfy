/**
 * The template processor itself: artifact elements and the module template
 * as objects updated in place, `ModuleArtifact` with its lazily filled
 * `artifact` field, and the processor's `process`, `processModuleVersion`
 * and `processArtifacts`, each proved against the value-level model.
 */
module TemplateProcessing {
  import opened Wrappers
  import opened JavaStrings
  import opened Placeholders
  import opened Resolution
  import opened Descriptor

  /** An artifact element of the template together with its `name` attribute. */
  class Node {
    var elementName: string
    var attrName: string
    var attrValue: string

    constructor (elementName: string, attrName: string, attrValue: string)
      ensures Value() == NodeValue(elementName, attrName, attrValue)
    {
      this.elementName, this.attrName, this.attrValue := elementName, attrName, attrValue;
    }

    function Value(): NodeValue
      reads this
    {
      NodeValue(elementName, attrName, attrValue)
    }
  }

  /** The values of a list of elements, in order. */
  function Values(ns: seq<Node>): (vs: seq<NodeValue>)
    reads set n | n in ns
    ensures |vs| == |ns|
  {
    if ns == [] then [] else [ns[0].Value()] + Values(ns[1..])
  }

  /** The k-th value is the k-th element's value. */
  lemma {:induction false} ValuesAt(ns: seq<Node>, k: nat)
    requires k < |ns|
    ensures Values(ns)[k] == ns[k].Value()
  {
    if k > 0 {
      ValuesAt(ns[1..], k - 1);
    }
  }

  /** Every element occurs once in the list, as children of one parent do. */
  predicate Distinct(ns: seq<Node>) {
    forall i, j :: 0 <= i < j < |ns| ==> ns[i] != ns[j]
  }

  /** Values taken element by element are the list's values. */
  lemma {:induction false} ValuesOf(ns: seq<Node>, vs: seq<NodeValue>)
    requires |ns| == |vs|
    requires forall j :: 0 <= j < |ns| ==> ns[j].Value() == vs[j]
    ensures Values(ns) == vs
  {
    if ns != [] {
      ValuesOf(ns[1..], vs[1..]);
    }
  }

  /** A module template: its kind, name, root `version` attribute and artifact elements. */
  class ModuleTemplate {
    const name: string
    const isModule: bool
    /** The root element's `version` attribute; None when the root has none. */
    var version: Option<string>
    /** `getArtifacts()`; None when it gives null. */
    const artifacts: Option<seq<Node>>

    constructor (name: string, isModule: bool, version: Option<string>, artifacts: Option<seq<Node>>)
      ensures this.name == name && this.isModule == isModule
      ensures this.version == version && this.artifacts == artifacts
    {
      this.name, this.isModule, this.version, this.artifacts := name, isModule, version, artifacts;
    }

    /** The artifact elements, as a set, for frames. */
    function ArtifactSet(): set<Node> {
      if artifacts.Some? then set n | n in artifacts.value else {}
    }
  }

  /** One artifact element being resolved and rewritten. */
  class ModuleArtifact {
    const template: ModuleTemplate
    const node: Node
    const env: Setup
    /** The `name` value the element had when this reference was made. */
    ghost const name: string
    /** The coordinate string; None where the Java field is null. */
    const coordsStr: Option<string>
    const jandex: bool
    /** The lazily resolved artifact; None until the first successful lookup. */
    var artifact: Option<MavenArtifact>
    /** How often `getUnresolvedArtifact` was called, and what the resolver was asked to resolve. */
    ghost var lookups: nat
    ghost var resolved: seq<MavenArtifact>

    /** The decoded fields are those of the `name` value the reference was made from. */
    ghost predicate Valid() {
      Decoded(coordsStr, jandex) == DecodeName(name, env.versionProps)
    }

    constructor (template: ModuleTemplate, node: Node, env: Setup)
      ensures this.template == template && this.node == node && this.env == env
      ensures name == node.attrValue && Valid()
      ensures Decoded(coordsStr, jandex) == DecodeName(name, env.versionProps)
      ensures artifact.None? && lookups == 0 && resolved == []
    {
      var s := node.attrValue;
      var coords := Some(s);
      var isJandex := false;
      if |s| >= 2 && s[0] == '$' && s[1] == '{' && s[|s| - 1] == '}' {
        var body := s[2..|s| - 1];
        var optionsIndex := IndexOf(body, '?');
        if optionsIndex >= 0 {
          isJandex := IndexOfFrom(body, "jandex", optionsIndex) >= 0;
          body := body[..optionsIndex];
        }
        coords := if body in env.versionProps then Some(env.versionProps[body]) else None;
      }
      this.template, this.node, this.env := template, node, env;
      name := s;
      coordsStr, jandex := coords, isJandex;
      artifact, lookups, resolved := None, 0, [];
    }

    /**
     * `getUnresolvedArtifact`: null without a coordinate string, otherwise the
     * full-coordinate lookup, its exception wrapped with the coordinate string.
     */
    method GetUnresolvedArtifact() returns (r: Result<Option<MavenArtifact>, Failure>)
      ensures r == UnresolvedArtifact(env, coordsStr)
      ensures coordsStr.None? ==> r == Ok(None)
      ensures r.Err? ==> coordsStr.Some? && r.error == FullCoordinatesFailed(coordsStr.value)
    {
      if coordsStr.None? {
        return Ok(None);
      }
      var c := env.toArtifactCoords(env.versionProps, coordsStr.value, false,
                                    env.channelArtifactResolution, env.requireChannel);
      match c
      case Found(a) => r := Ok(Some(a));
      case NotFound => r := Ok(None);
      case Invalid => r := Err(FullCoordinatesFailed(coordsStr.value));
    }

    /**
     * `getMavenArtifact`: resolve once and remember. With the field already
     * set, neither the lookup nor the resolver runs again.
     */
    method GetMavenArtifact() returns (r: Result<MavenArtifact, Failure>)
      modifies this`artifact, this`lookups, this`resolved
      ensures (artifact, r) == Fetch(env, coordsStr, template.name, old(artifact))
      ensures old(artifact).Some? ==> lookups == old(lookups) && resolved == old(resolved)
      ensures old(artifact).None? ==> lookups == old(lookups) + 1
      ensures old(artifact).None? ==>
        resolved == old(resolved) + (match UnresolvedArtifact(env, coordsStr)
                                     case Ok(Some(a)) => [a]
                                     case _ => [])
    {
      if artifact.None? {
        var u := GetUnresolvedArtifact();
        lookups := lookups + 1;
        if u.Err? {
          return Err(u.error);
        }
        artifact := u.value;
        if artifact.None? {
          return Err(UnknownArtifact(template.name));
        }
        resolved := resolved + [artifact.value];
        var b := env.resolve(artifact.value);
        if b.None? {
          return Err(ArtifactResolutionFailed(artifact.value));
        }
        artifact := b;
      }
      r := Ok(artifact.value);
    }

    /** `hasMavenArtifact`: answers true or throws; it never answers false. */
    method HasMavenArtifact() returns (r: Result<bool, Failure>)
      modifies this`artifact, this`lookups, this`resolved
      ensures var (memo, f) := Fetch(env, coordsStr, template.name, old(artifact));
        artifact == memo && r == (if f.Ok? then Ok(true) else Err(f.error))
      ensures r.Ok? ==> r.value && artifact.Some?
      ensures old(artifact).Some? ==> lookups == old(lookups) && resolved == old(resolved)
      ensures old(artifact).None? ==> lookups == old(lookups) + 1
      ensures old(artifact).None? ==>
        resolved == old(resolved) + (match UnresolvedArtifact(env, coordsStr)
                                     case Ok(Some(a)) => [a]
                                     case _ => [])
    {
      var a := GetMavenArtifact();
      if a.Err? {
        return Err(a.error);
      }
      r := Ok(true);
    }

    /** `isJandex`. */
    function IsJandex(): (j: bool)
      requires Valid()
      ensures j == DecodeName(name, env.versionProps).jandex
    {
      jandex
    }

    /** `updateFatArtifact`: the element becomes a `resource-root` with a `path`. */
    method UpdateFatArtifact(finalFileName: string)
      modifies node
      ensures node.elementName == "resource-root" && node.attrName == "path"
      ensures node.attrValue == finalFileName
      ensures node.Value() == FatRewrite(old(node.Value()), finalFileName)
    {
      node.elementName := "resource-root";
      node.attrName := "path";
      node.attrValue := finalFileName;
    }

    /** `updateThinArtifact`: only the attribute value changes. */
    method UpdateThinArtifact(coords: string)
      modifies node
      ensures node.elementName == old(node.elementName) && node.attrName == old(node.attrName)
      ensures node.attrValue == coords
      ensures node.Value() == ThinRewrite(old(node.Value()), coords)
    {
      node.attrValue := coords;
    }
  }

  /** The processor of one module template, with the schema notifications it has sent. */
  class ModuleTemplateProcessor {
    const template: ModuleTemplate
    const env: Setup
    const packaging: Packaging
    /** The `plugin.processSchemas` calls made so far, in order. */
    var schemas: seq<Notice>

    constructor (template: ModuleTemplate, env: Setup, packaging: Packaging)
      ensures this.template == template && this.env == env && this.packaging == packaging
      ensures schemas == []
    {
      this.template, this.env, this.packaging := template, env, packaging;
      schemas := [];
    }

    /** The artifact list as values. */
    function Artifacts(): seq<NodeValue>
      reads template.ArtifactSet()
    {
      if template.artifacts.Some? then Values(template.artifacts.value) else []
    }

    /**
     * `process`: nothing for a template that is not a module; otherwise the
     * version first, then the artifacts, stopping at the first exception.
     */
    method Process() returns (r: Outcome<Failure>)
      requires template.artifacts.Some? ==> Distinct(template.artifacts.value)
      modifies this`schemas, template`version, template.ArtifactSet()
      ensures !template.isModule ==>
        r == Pass && schemas == old(schemas) && template.version == old(template.version)
        && Artifacts() == old(Artifacts())
      ensures template.isModule ==>
        var v := VersionStep(env, old(template.version));
        if v.Err? then
          r == Fail(v.error) && template.version == old(template.version)
          && schemas == old(schemas) && Artifacts() == old(Artifacts())
        else
          template.version == v.value &&
          if template.artifacts.None? then r == Pass && schemas == old(schemas)
          else
            var run := ProcessAll(env, packaging, template.name, old(Artifacts()));
            Artifacts() == run.nodes && schemas == old(schemas) + run.notices
            && r == (if run.failure.Some? then Fail(run.failure.value) else Pass)
    {
      r := Pass;
      if template.isModule {
        r := ProcessModuleVersion();
        if r.Pass? {
          r := ProcessArtifacts();
        }
      }
    }

    /**
     * `processModuleVersion`: a `${...}` version attribute is replaced by the
     * version of the artifact its name looks up to, when there is one.
     */
    method ProcessModuleVersion() returns (r: Outcome<Failure>)
      modifies template`version
      ensures var v := VersionStep(env, old(template.version));
        if v.Ok? then r == Pass && template.version == v.value
        else r == Fail(v.error) && template.version == old(template.version)
    {
      r := Pass;
      if template.version.Some? {
        var versionExpr := template.version.value;
        if |versionExpr| >= 2 && versionExpr[0] == '$' && versionExpr[1] == '{'
           && versionExpr[|versionExpr| - 1] == '}' {
          var exprBody := versionExpr[2..|versionExpr| - 1];
          var optionsIndex := IndexOf(exprBody, '?');
          var artifactName;
          if optionsIndex > 0 {
            artifactName := exprBody[..optionsIndex];
          } else {
            artifactName := exprBody;
          }
          var c := env.toArtifactCoords(env.versionProps, artifactName, false,
                                        env.channelArtifactResolution, env.requireChannel);
          match c
          case Invalid => r := Fail(VersionCoordinatesFailed(artifactName));
          case NotFound =>
          case Found(a) => template.version := Some(a.version);
        }
      }
    }

    /** The subclass hook `processArtifact`: the configured fat or thin rewrite. */
    method ProcessArtifact(ma: ModuleArtifact)
      requires ma.Valid() && ma.artifact.Some?
      modifies ma.node
      ensures ma.node.Value() == Installed(packaging, old(ma.node.Value()), ma.artifact.value, ma.IsJandex())
    {
      match packaging
      case Fat(fileName) => ma.UpdateFatArtifact(fileName(ma.artifact.value, ma.IsJandex()));
      case Thin(coordsOf) => ma.UpdateThinArtifact(coordsOf(ma.artifact.value, ma.IsJandex()));
    }

    /**
     * One iteration of `processArtifacts` on an element: a fresh reference, the
     * existence check, the hook, then the schema notification with the group
     * and the path read before the hook ran.
     */
    method ProcessElement(node: Node) returns (r: Outcome<Failure>)
      modifies this`schemas, node
      ensures var step := ArtifactStep(env, packaging, template.name, old(node.Value()));
        && (step.Err? ==> r == Fail(step.error) && node.Value() == old(node.Value()) && schemas == old(schemas))
        && (step.Ok? ==> r == Pass && node.Value() == step.value.0 && schemas == old(schemas) + [step.value.1])
    {
      var moduleArtifact := new ModuleArtifact(template, node, env);
      var has := moduleArtifact.HasMavenArtifact();
      if has.Err? {
        return Fail(has.error);
      }
      if has.value {
        var a := moduleArtifact.GetMavenArtifact();
        var artifactPath := a.value.path;
        ProcessArtifact(moduleArtifact);
        a := moduleArtifact.GetMavenArtifact();
        schemas := schemas + [Notice(a.value.groupId, artifactPath)];
      }
      r := Pass;
    }

    /**
     * What the first `|done|` turns of `processArtifacts` have achieved: those
     * elements rewritten into `done` with `sent` notified, the rest untouched.
     */
    ghost predicate Visited(artifacts: seq<Node>, before: seq<NodeValue>, done: seq<NodeValue>, sent: seq<Notice>)
      reads set n | n in artifacts
    {
      && |artifacts| == |before| && |done| <= |artifacts|
      && (forall j :: 0 <= j < |done| ==> artifacts[j].Value() == done[j])
      && (forall j :: |done| <= j < |artifacts| ==> artifacts[j].Value() == before[j])
      && StepsAgree(env, packaging, template.name, before, done, sent)
    }

    /** One turn of the loop of `processArtifacts`, with what its proof keeps track of. */
    method VisitArtifact(artifacts: seq<Node>, i: nat, ghost before: seq<NodeValue>,
                         ghost done: seq<NodeValue>, ghost sent: seq<Notice>)
      returns (r: Outcome<Failure>, ghost done': seq<NodeValue>, ghost sent': seq<Notice>)
      requires Distinct(artifacts) && i < |artifacts| && |done| == i
      requires Visited(artifacts, before, done, sent)
      modifies this`schemas, artifacts[i]
      ensures r.Fail? ==>
        schemas == old(schemas) && Values(artifacts) == done + before[i..]
        && ProcessAll(env, packaging, template.name, before) == Run(done + before[i..], sent, Some(r.error))
      ensures r.Pass? ==>
        |done'| == i + 1 && Visited(artifacts, before, done', sent')
        && |sent'| == |sent| + 1 && schemas == old(schemas) + [sent'[|sent|]] && sent'[..|sent|] == sent
    {
      assert forall j :: 0 <= j < |artifacts| && j != i ==> artifacts[j] != artifacts[i];
      ghost var step := ArtifactStep(env, packaging, template.name, before[i]);
      r := ProcessElement(artifacts[i]);
      if r.Fail? {
        ProcessAllStopped(env, packaging, template.name, before, done, sent, r.error);
        ghost var now := done + before[i..];
        forall j | 0 <= j < |artifacts| ensures artifacts[j].Value() == now[j] {
          if j < i {
            assert now[j] == done[j];
          } else {
            assert now[j] == before[j];
          }
        }
        ValuesOf(artifacts, now);
        done', sent' := done, sent;
        return;
      }
      done', sent' := done + [step.value.0], sent + [step.value.1];
      assert sent'[..|sent|] == sent;
    }

    /**
     * `processArtifacts`: the artifact elements in document order, each
     * resolved, handed to the hook and announced to the schema processing;
     * the first exception ends the loop with the earlier elements rewritten.
     */
    method ProcessArtifacts() returns (r: Outcome<Failure>)
      requires template.artifacts.Some? ==> Distinct(template.artifacts.value)
      modifies this`schemas, template.ArtifactSet()
      ensures template.artifacts.None? ==> r == Pass && schemas == old(schemas)
      ensures template.artifacts.Some? ==>
        var run := ProcessAll(env, packaging, template.name, old(Artifacts()));
        Artifacts() == run.nodes && schemas == old(schemas) + run.notices
        && r == (if run.failure.Some? then Fail(run.failure.value) else Pass)
    {
      if template.artifacts.None? {
        return Pass;
      }
      var artifacts := template.artifacts.value;
      ghost var before := Values(artifacts);
      forall j | 0 <= j < |artifacts| ensures artifacts[j].Value() == before[j] {
        ValuesAt(artifacts, j);
      }
      ghost var done: seq<NodeValue> := [];
      ghost var sent: seq<Notice> := [];
      var artifactCount := |artifacts|;
      var i := 0;
      while i < artifactCount
        invariant 0 <= i <= artifactCount && |done| == i
        invariant Visited(artifacts, before, done, sent)
        invariant schemas == old(schemas) + sent
      {
        r, done, sent := VisitArtifact(artifacts, i, before, done, sent);
        if r.Fail? {
          return;
        }
        i := i + 1;
      }
      ProcessAllCompleted(env, packaging, template.name, before, done, sent);
      ValuesOf(artifacts, done);
      r := Pass;
    }
  }
}
