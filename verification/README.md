# Module template processing (WildFly Galleon plugin)

This project models the core of `AbstractModuleTemplateProcessor` from the
WildFly Galleon plugins. The processor walks one `module.xml` template
before provisioning. It replaces a `${...}` placeholder in the root
`version` attribute with a resolved artifact version. It then resolves
every `<artifact name="...">` element to a Maven artifact and hands it to
the packaging hook. The fat installer turns the element into a
`resource-root` with a `path`. The thin installer rewrites only the
coordinate string. After the hook, the processor notifies the plugin's
schema processing with the artifact's group and local path.

The model has six modules:

- `JavaStrings` (`java_strings.dfy`): `String.indexOf(char)`, `String.indexOf(String, int)` and substring containment.
- `Placeholders` (`placeholders.dfy`): the `${key?options}` grammar. This covers the decoding in the `ModuleArtifact` constructor, the `jandex` flag, and the different key cut used for the version attribute.
- `Resolution` (`resolution.dfy`): the full-coordinate lookup (`getUnresolvedArtifact`) and the memoised resolution (`getMavenArtifact`), as functions of a `Setup`. A `Setup` holds the version table, the two channel flags, and the two collaborators. `Utils.toArtifactCoords` and the Maven resolver are function-valued fields of `Setup`.
- `Descriptor` (`descriptor.dfy`): the value-level meaning of a run. It defines the per-element step, the run over the artifact list in document order (`ProcessAll`), and the version step.
- `TemplateProcessing` (`processor.dfy`): the Java objects as classes updated in place. `Node` is an artifact element. `ModuleTemplate` holds the version attribute and the artifact list. `ModuleArtifact` has its lazily filled `artifact` field. `ModuleTemplateProcessor` records the schema notifications it has sent. Each method is proved against the `Descriptor` and `Resolution` functions.
- `Wrappers` (`wrappers.dfy`): `Option`, `Result` and `Outcome`. A Java `null` is `None`, and a thrown exception is `Err`/`Fail` with a `Failure`.

Two behaviours of the code are easy to misread:

- A placeholder whose key is missing from the version table leaves `coordsStr` null. `getMavenArtifact` then throws "Unknown artifact in module" (lines 95-96), so the element is not skipped silently.
- As a consequence, `hasMavenArtifact` answers true or throws. It never answers false, so the `if` at line 202 never skips an element. This is stated by `HasMavenArtifact`, `Resolution.FetchNeverAbsent`, `Descriptor.UnknownKeyIsFatal` and `Descriptor.MissingKeyScenario`.

## Model

| member | source | states |
|---|---|---|
| JavaStrings.IndexOf | galleon-plugins/src/main/java/org/wildfly/galleon/plugin/AbstractModuleTemplateProcessor.java:69 | `indexOf('?')`: -1 exactly when the character is absent; otherwise the index holds it and no earlier index does |
| JavaStrings.IndexOfFrom | galleon-plugins/src/main/java/org/wildfly/galleon/plugin/AbstractModuleTemplateProcessor.java:71 | `indexOf("jandex", from)`: -1 exactly when there is no occurrence at or after `from`; otherwise the first such occurrence |
| Placeholders.Body | galleon-plugins/src/main/java/org/wildfly/galleon/plugin/AbstractModuleTemplateProcessor.java:67-68 | the substring between `${` and `}`: wrapping it again gives the attribute value back |
| Placeholders.ArtifactKey | galleon-plugins/src/main/java/org/wildfly/galleon/plugin/AbstractModuleTemplateProcessor.java:69-72 | the artifact key is a `?`-free prefix of the body, either all of it or cut just before its first `?` |
| Placeholders.BodyOfWrapped | galleon-plugins/src/main/java/org/wildfly/galleon/plugin/AbstractModuleTemplateProcessor.java:67-68 | `${k}` is recognised as a placeholder and its body is `k` |
| Placeholders.DecodeLiteral | galleon-plugins/src/main/java/org/wildfly/galleon/plugin/AbstractModuleTemplateProcessor.java:66-67 | a value not of the form `${...}` is kept verbatim as the coordinate string, is not looked up, and is not jandex |
| Placeholders.DecodeBareKey | galleon-plugins/src/main/java/org/wildfly/galleon/plugin/AbstractModuleTemplateProcessor.java:67-74 | `${k}` with no `?` gives the version-table entry of `k` (null when absent) and no jandex flag |
| Placeholders.JandexSearchesOptions | galleon-plugins/src/main/java/org/wildfly/galleon/plugin/AbstractModuleTemplateProcessor.java:69-71 | for `k?opts`, the first `?` is at `\|k\|`; the search that starts at the `?` itself finds "jandex" exactly when it occurs in `opts` |
| Placeholders.DecodeWithOptions | galleon-plugins/src/main/java/org/wildfly/galleon/plugin/AbstractModuleTemplateProcessor.java:67-74 | `${k?opts}` looks up `k` and is jandex exactly when `opts` contains "jandex" |
| Placeholders.JandexIsSubstringMatch | galleon-plugins/src/main/java/org/wildfly/galleon/plugin/AbstractModuleTemplateProcessor.java:71 | the flag is set by substring containment, so `?nojandex` sets it |
| Placeholders.OtherOptionsAreNotJandex | galleon-plugins/src/main/java/org/wildfly/galleon/plugin/AbstractModuleTemplateProcessor.java:70-71 | `?other` does not set the flag |
| Placeholders.JandexNeedsOptions | galleon-plugins/src/main/java/org/wildfly/galleon/plugin/AbstractModuleTemplateProcessor.java:67-73 | the jandex flag is set only for a placeholder whose body has a `?` |
| Placeholders.VersionKeyVersusArtifactKey | galleon-plugins/src/main/java/org/wildfly/galleon/plugin/AbstractModuleTemplateProcessor.java:179-185 | the version rule (`optionsIndex > 0`) and the artifact rule (`optionsIndex >= 0`) agree except on a body starting with `?`, which the version rule keeps whole and the artifact rule cuts to the empty key |
| Placeholders.VersionKeyCut | galleon-plugins/src/main/java/org/wildfly/galleon/plugin/AbstractModuleTemplateProcessor.java:179-185 | for `k?opts` with a non-empty `?`-free `k`, both rules give `k` |
| Resolution.FetchCached | galleon-plugins/src/main/java/org/wildfly/galleon/plugin/AbstractModuleTemplateProcessor.java:90-106 | memoisation: with the field set, `getMavenArtifact` returns the cached artifact and leaves the field unchanged |
| Resolution.FetchTwice | galleon-plugins/src/main/java/org/wildfly/galleon/plugin/AbstractModuleTemplateProcessor.java:90-106 | after a successful call, a second call returns the same artifact and changes nothing |
| Resolution.FetchNeverAbsent | galleon-plugins/src/main/java/org/wildfly/galleon/plugin/AbstractModuleTemplateProcessor.java:90-111 | a call that returns leaves its artifact cached, so `hasMavenArtifact` cannot answer false |
| Resolution.UnknownArtifactExactly | galleon-plugins/src/main/java/org/wildfly/galleon/plugin/AbstractModuleTemplateProcessor.java:79-97 | "Unknown artifact in module" is thrown if and only if nothing was cached and either the coordinate string is null or the lookup gives null |
| Resolution.FailuresNameCulprit | galleon-plugins/src/main/java/org/wildfly/galleon/plugin/AbstractModuleTemplateProcessor.java:83-104 | a "full coordinates" failure names the coordinate string whose lookup threw and leaves the field null; a "failed to resolve" failure names the artifact the resolver rejected and leaves it in the field |
| Resolution.RetryAfterResolverFailure | galleon-plugins/src/main/java/org/wildfly/galleon/plugin/AbstractModuleTemplateProcessor.java:91-104 | after the resolver throws, the field keeps the unresolved artifact, and the next call returns it without resolving again |
| Descriptor.FatRenames | galleon-plugins/src/main/java/org/wildfly/galleon/plugin/AbstractModuleTemplateProcessor.java:117-121 | the fat rewrite gives element `resource-root`, attribute `path`, value the file name |
| Descriptor.ThinKeepsNames | galleon-plugins/src/main/java/org/wildfly/galleon/plugin/AbstractModuleTemplateProcessor.java:123-125 | the thin rewrite keeps both names and replaces only the value |
| Descriptor.ProcessAllCompleted | galleon-plugins/src/main/java/org/wildfly/galleon/plugin/AbstractModuleTemplateProcessor.java:199-207 | stepping every element successfully from first to last gives the recursive run with no failure |
| Descriptor.ProcessAllStopped | galleon-plugins/src/main/java/org/wildfly/galleon/plugin/AbstractModuleTemplateProcessor.java:199-207 | stepping until one element throws gives the earlier elements rewritten, the rest unchanged, and that element's exception |
| Descriptor.ProcessAllShape | galleon-plugins/src/main/java/org/wildfly/galleon/plugin/AbstractModuleTemplateProcessor.java:199-207 | a run keeps the list's length and sends at most one notification per element, one for every element when nothing threw |
| Descriptor.ProcessAllInOrder | galleon-plugins/src/main/java/org/wildfly/galleon/plugin/AbstractModuleTemplateProcessor.java:200-206 | document order: the k-th notification and the k-th rewritten element come from the k-th element's own step |
| Descriptor.ProcessAllStopsAtFailure | galleon-plugins/src/main/java/org/wildfly/galleon/plugin/AbstractModuleTemplateProcessor.java:200-206 | on a failure, the failing element is the first unnotified one, its exception is the run's, and it and all later elements are unchanged (no rollback, no skipping) |
| Descriptor.ProcessAllSucceedsIff | galleon-plugins/src/main/java/org/wildfly/galleon/plugin/AbstractModuleTemplateProcessor.java:200-206 | a run succeeds if and only if every element's step succeeds |
| Descriptor.UnknownKeyIsFatal | galleon-plugins/src/main/java/org/wildfly/galleon/plugin/AbstractModuleTemplateProcessor.java:74 | an element whose placeholder key is missing from the version table throws "Unknown artifact in module" |
| Descriptor.ThinScenario | galleon-plugins/src/main/java/org/wildfly/galleon/plugin/AbstractModuleTemplateProcessor.java:200-206 | thin run on `name="${k}"` that resolves: the value becomes the installer's coordinate string, and one notification carries the artifact's group and path |
| Descriptor.FatScenario | galleon-plugins/src/main/java/org/wildfly/galleon/plugin/AbstractModuleTemplateProcessor.java:200-206 | fat run on the same element: it becomes a `resource-root` whose `path` is the installer's file name |
| Descriptor.MissingKeyScenario | galleon-plugins/src/main/java/org/wildfly/galleon/plugin/AbstractModuleTemplateProcessor.java:200-206 | `name="${k}"` with `k` missing: the run stops with "Unknown artifact in module", nothing is rewritten and nothing is notified |
| Descriptor.VersionChangesOnlyWhenResolved | galleon-plugins/src/main/java/org/wildfly/galleon/plugin/AbstractModuleTemplateProcessor.java:174-190 | the version attribute changes only when it is a placeholder whose name the lookup resolves, and then to that artifact's version; an absent attribute stays absent |
| Descriptor.VersionAbsentKeySkips | galleon-plugins/src/main/java/org/wildfly/galleon/plugin/AbstractModuleTemplateProcessor.java:186-189 | a placeholder name the lookup does not know leaves the attribute unchanged |
| Descriptor.VersionOptionsAreTrimmed | galleon-plugins/src/main/java/org/wildfly/galleon/plugin/AbstractModuleTemplateProcessor.java:177-189 | `${k?opts}` behaves exactly as `${k}` when found or on an exception; when not found it keeps its own text |
| Descriptor.VersionLeadingQuestionMark | galleon-plugins/src/main/java/org/wildfly/galleon/plugin/AbstractModuleTemplateProcessor.java:179-186 | in `${?opts}` the leading `?` is not a cut: the whole `?opts` is the name looked up |
| TemplateProcessing.ModuleArtifact.constructor | galleon-plugins/src/main/java/org/wildfly/galleon/plugin/AbstractModuleTemplateProcessor.java:51-77 | the imperative decoding of lines 66-75 leaves `coordsStr` and `jandex` equal to `DecodeName` of the element's `name`, with no artifact cached |
| TemplateProcessing.ModuleArtifact.GetUnresolvedArtifact | galleon-plugins/src/main/java/org/wildfly/galleon/plugin/AbstractModuleTemplateProcessor.java:79-88 | null for a null coordinate string; otherwise the lookup's result; its exception is wrapped with the coordinate string |
| TemplateProcessing.ModuleArtifact.GetMavenArtifact | galleon-plugins/src/main/java/org/wildfly/galleon/plugin/AbstractModuleTemplateProcessor.java:90-107 | the new field and the result are `Fetch` of the old field; with the field set, neither the lookup nor the resolver runs; otherwise the lookup runs once and the resolver sees exactly the artifact it found |
| TemplateProcessing.ModuleArtifact.HasMavenArtifact | galleon-plugins/src/main/java/org/wildfly/galleon/plugin/AbstractModuleTemplateProcessor.java:109-111 | answers true with the artifact cached, or throws `getMavenArtifact`'s exception; never false; with nothing cached it runs the lookup once and hands the resolver at most the one artifact found, and with the artifact cached it runs neither |
| TemplateProcessing.ModuleArtifact.IsJandex | galleon-plugins/src/main/java/org/wildfly/galleon/plugin/AbstractModuleTemplateProcessor.java:113-115 | the jandex flag decoded from the element's `name` |
| TemplateProcessing.ModuleArtifact.UpdateFatArtifact | galleon-plugins/src/main/java/org/wildfly/galleon/plugin/AbstractModuleTemplateProcessor.java:117-121 | the element becomes `resource-root` with attribute `path` holding the file name |
| TemplateProcessing.ModuleArtifact.UpdateThinArtifact | galleon-plugins/src/main/java/org/wildfly/galleon/plugin/AbstractModuleTemplateProcessor.java:123-125 | only the attribute value changes, to the given coordinates |
| TemplateProcessing.ModuleTemplateProcessor.constructor | galleon-plugins/src/main/java/org/wildfly/galleon/plugin/AbstractModuleTemplateProcessor.java:137-147 | a processor for one template and setup that has sent no notification |
| TemplateProcessing.ModuleTemplateProcessor.Process | galleon-plugins/src/main/java/org/wildfly/galleon/plugin/AbstractModuleTemplateProcessor.java:165-170 | a non-module template is left unchanged; a module has its version processed first, and a version exception leaves the artifacts and notifications unchanged; otherwise the artifact run follows |
| TemplateProcessing.ModuleTemplateProcessor.ProcessModuleVersion | galleon-plugins/src/main/java/org/wildfly/galleon/plugin/AbstractModuleTemplateProcessor.java:172-192 | the imperative version replacement equals `VersionStep`; on an exception the attribute is unchanged |
| TemplateProcessing.ModuleTemplateProcessor.ProcessArtifact | galleon-plugins/src/main/java/org/wildfly/galleon/plugin/AbstractModuleTemplateProcessor.java:210 | the hook applies the configured fat or thin rewrite to the element, using the resolved artifact and its jandex flag |
| TemplateProcessing.ModuleTemplateProcessor.ProcessElement | galleon-plugins/src/main/java/org/wildfly/galleon/plugin/AbstractModuleTemplateProcessor.java:201-205 | one loop iteration: on an exception the element and the notifications are unchanged; otherwise the element is rewritten and one notification is appended, with the path read before the hook |
| TemplateProcessing.ModuleTemplateProcessor.VisitArtifact | galleon-plugins/src/main/java/org/wildfly/galleon/plugin/AbstractModuleTemplateProcessor.java:200-207 | one turn of the loop either extends the visited prefix by one element and one notification, or ends with the whole list equal to the recursive run stopped at that element |
| TemplateProcessing.ModuleTemplateProcessor.ProcessArtifacts | galleon-plugins/src/main/java/org/wildfly/galleon/plugin/AbstractModuleTemplateProcessor.java:194-208 | a null list changes nothing; otherwise the elements and the sent notifications afterwards are exactly those of `ProcessAll` on the elements' old values, and the method throws exactly the run's failure |

## Left out

- Logging (`log.verbose`) and the `MessageWriter` are not modelled: they have no effect on the result.
- The getters `getInstaller`, `getPlugin`, `getTargetDir` and `getLog` are not modelled, and neither are the plugin and installer objects behind them. Only the resolver and `processSchemas` matter to the core, and they are modelled as a function and as the `schemas` list.
- `Utils.toArtifactCoords` is not part of this model. It is a function-valued parameter of `Setup` with three outcomes: an artifact, null, or a `ProvisioningException`. The channel flags are passed to it unchanged.
- The Maven resolver is a function from an artifact to the resolved artifact, or None when it throws. The Java resolver fills in the same object in place and could leave it partly filled before throwing. The model keeps the unresolved value in that case.
- The subclass hook `processArtifact` is modelled by its two known behaviours (fat and thin), each parameterised by how the installer names the file or the coordinates. Exceptions thrown from within the hook (`IOException`, `MavenUniverseException`, `ProvisioningException`) are not modelled.
- The Java `assert` at line 64 is not modelled. Neither is the `NullPointerException` at line 66 when an artifact element has no `name` attribute: the model reads a `Node`'s attribute value as its `name`, whatever the attribute is called.
- XOM document structure is reduced to the parts the processor touches: the artifact elements with their `name` attribute, and the root `version` attribute. The artifact list is assumed to hold distinct elements (`Distinct`), as a document's child list does.
- `processSchemas` is recorded as a notification; what the plugin then does with the schemas is not modelled.
- JavaStrings.IndexOf, JavaStrings.IndexOfFrom: indices count Unicode scalar values, while Java's `indexOf` counts UTF-16 code units, so the returned index differs once a supplementary character precedes the match. The index is only used to cut the same string and to test containment, so `DecodeName` and `VersionKey` give the Java results.
- JavaStrings.IndexOfFrom: for the empty needle with a start index past the end, Java answers the string length and the model answers -1. The model only searches for "jandex", where the two agree.
