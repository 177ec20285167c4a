/**
 * The `${key?options}` placeholder grammar of module templates: the decoding
 * done by the `ModuleArtifact` constructor for an artifact's `name` attribute,
 * and the key extraction done for the root `version` attribute.
 */
module Placeholders {
  import opened Wrappers
  import opened JavaStrings

  /** The version table: property name to coordinate string. */
  type VersionProps = map<string, string>

  /** `s.startsWith("${") && s.endsWith("}")`. */
  predicate IsPlaceholder(s: string) {
    |s| >= 2 && s[0] == '$' && s[1] == '{' && s[|s| - 1] == '}'
  }

  /** What lies between `${` and `}`: `s.substring(2, s.length() - 1)`. */
  function Body(s: string): (b: string)
    requires IsPlaceholder(s)
    ensures s == "${" + b + "}"
  {
    s[2..|s| - 1]
  }

  /** `versionProps.get(key)`: a missing key gives null. */
  function Lookup(props: VersionProps, key: string): Option<string> {
    if key in props then Some(props[key]) else None
  }

  /**
   * The lookup key of an artifact placeholder: the body cut at its first `?`
   * whenever there is one (`optionsIndex >= 0`).
   */
  function ArtifactKey(body: string): (key: string)
    ensures key <= body && '?' !in key
    ensures key == body || body[|key|] == '?'
  {
    var q := IndexOf(body, '?');
    if q >= 0 then body[..q] else body
  }

  /**
   * The artifact name of a version placeholder: the body cut at its first `?`
   * only when that `?` is not the first character (`optionsIndex > 0`).
   */
  function VersionKey(body: string): string {
    var q := IndexOf(body, '?');
    if q > 0 then body[..q] else body
  }

  /** The `jandex` flag: "jandex" occurs at or after the first `?` of the body. */
  predicate JandexFlag(body: string) {
    var q := IndexOf(body, '?');
    q >= 0 && IndexOfFrom(body, "jandex", q) >= 0
  }

  /** The fields `coordsStr` (null as None) and `jandex` a `ModuleArtifact` starts with. */
  datatype Decoded = Decoded(coords: Option<string>, jandex: bool)

  /**
   * Decoding of an artifact's `name` value: a placeholder is replaced by the
   * version-table entry of its key; anything else is a literal coordinate.
   */
  function DecodeName(name: string, props: VersionProps): Decoded {
    if IsPlaceholder(name) then
      var body := Body(name);
      Decoded(Lookup(props, ArtifactKey(body)), JandexFlag(body))
    else
      Decoded(Some(name), false)
  }

  /** Stripping the markers of `"${" + k + "}"` gives back `k`. */
  lemma BodyOfWrapped(k: string)
    ensures IsPlaceholder("${" + k + "}") && Body("${" + k + "}") == k
  {
    var s := "${" + k + "}";
    assert s[2..|s| - 1] == k;
  }

  /** A value that is not `${...}` is kept verbatim, is not looked up and is not jandex. */
  lemma DecodeLiteral(name: string, props: VersionProps)
    requires !IsPlaceholder(name)
    ensures DecodeName(name, props) == Decoded(Some(name), false)
  {
  }

  /** `${k}` with no `?` in `k` looks `k` itself up, and is not jandex. */
  lemma DecodeBareKey(k: string, props: VersionProps)
    requires '?' !in k
    ensures DecodeName("${" + k + "}", props) == Decoded(Lookup(props, k), false)
  {
    BodyOfWrapped(k);
  }

  /**
   * The jandex search starts at the `?` itself; since that character is not
   * `j`, it finds exactly the occurrences inside the options after the `?`.
   */
  lemma {:induction false} JandexSearchesOptions(k: string, opts: string)
    requires '?' !in k
    ensures IndexOf(k + "?" + opts, '?') == |k|
    ensures JandexFlag(k + "?" + opts) <==> Contains(opts, "jandex")
  {
    var body := k + "?" + opts;
    var q := IndexOf(body, '?');
    assert body[|k|] == '?';
    assert body[..|k|] == k;
    assert q == |k|;
    var pre := k + "?";
    assert body == pre + opts;
    if Contains(opts, "jandex") {
      var j :| 0 <= j <= |opts| && OccursAt(opts, "jandex", j);
      OccursAtShift(pre, opts, "jandex", j);
      assert OccursAt(body, "jandex", |pre| + j);
    }
    if JandexFlag(body) {
      var r := IndexOfFrom(body, "jandex", q);
      assert r != q by {
        assert body[q] == '?';
        assert body[r] == body[r..r + 6][0] == 'j';
      }
      OccursAtShift(pre, opts, "jandex", r - |pre|);
      assert OccursAt(opts, "jandex", r - |pre|);
    }
  }

  /**
   * `${k?opts}` with no `?` in `k` looks `k` up and is jandex exactly when
   * "jandex" is a substring of `opts` (containment, not token matching).
   */
  lemma DecodeWithOptions(k: string, opts: string, props: VersionProps)
    requires '?' !in k
    ensures DecodeName("${" + k + "?" + opts + "}", props)
         == Decoded(Lookup(props, k), Contains(opts, "jandex"))
  {
    var body := k + "?" + opts;
    BodyOfWrapped(body);
    assert "${" + k + "?" + opts + "}" == "${" + body + "}";
    JandexSearchesOptions(k, opts);
    assert body[..|k|] == k;
  }

  /** Option strings that merely contain "jandex", such as `nojandex`, set the flag. */
  lemma JandexIsSubstringMatch(k: string, props: VersionProps)
    requires '?' !in k
    ensures DecodeName("${" + k + "?" + "nojandex" + "}", props).jandex
  {
    DecodeWithOptions(k, "nojandex", props);
    assert OccursAt("nojandex", "jandex", 2);
  }

  /** Options without the sequence "jandex" leave the flag unset. */
  lemma OtherOptionsAreNotJandex(k: string, props: VersionProps)
    requires '?' !in k
    ensures !DecodeName("${" + k + "?" + "other" + "}", props).jandex
  {
    DecodeWithOptions(k, "other", props);
  }

  /** The jandex flag is only ever set for a placeholder whose body has a `?`. */
  lemma JandexNeedsOptions(name: string, props: VersionProps)
    requires DecodeName(name, props).jandex
    ensures IsPlaceholder(name) && '?' in Body(name)
  {
  }

  /**
   * The two cut rules differ on exactly one shape of body: a leading `?`,
   * which the version rule keeps whole and the artifact rule cuts to "".
   */
  lemma VersionKeyVersusArtifactKey(body: string)
    ensures |body| > 0 && body[0] == '?' ==> VersionKey(body) == body && ArtifactKey(body) == ""
    ensures (|body| == 0 || body[0] != '?') ==> VersionKey(body) == ArtifactKey(body)
  {
  }

  /** For `k?opts` with a non-empty, `?`-free `k`, both rules give `k`. */
  lemma VersionKeyCut(k: string, opts: string)
    requires '?' !in k && k != ""
    ensures VersionKey(k + "?" + opts) == k && ArtifactKey(k + "?" + opts) == k
  {
    JandexSearchesOptions(k, opts);
    assert (k + "?" + opts)[..|k|] == k;
  }
}
