# DevfileRegistry defaulting layer

A Dafny model of the defaulting layer of the DevfileRegistry Kubernetes operator
(Go package `registry`). Each resolver reads a DevfileRegistry custom resource
(CR), which may be absent, and returns one of two things: the value the user set,
or a compiled-in default. The resolvers are:

- the TLS and storage toggles;
- the telemetry and ingress flags;
- the volume source and the volume size;
- the memory limits of the three containers (devfile index, OCI registry,
  registry viewer);
- the ingress class and the hostname, name and full-name overrides;
- the application name and the full application name, both held to the
  63-character limit Kubernetes puts on names and label values.

The behaviour modelled is the one pinned down by the resolvers' table-driven
tests in `pkg/registry/defaults_test.go`.

Files:

- `options.dfy` (`Options`): `Option`, standing for a Go pointer that may be nil.
- `names.dfy` (`Names`): Go's `strings.Contains`, the label cut `Truncate`,
  its specification `IsLabelCut`, and lemmas about both.
- `defaults.dfy` (`Registry`): the flattened CR, the volume-source types, the
  default constants and every resolver.
- `properties.dfy` (`RegistryProperties`): properties that hold for all inputs
  or relate several calls.
- `cases.dfy` (`RegistryCases`): each test table, stated as a lemma.

Go's zero values mean "unset". An empty string field is unset. The TLS and
storage `enabled` flags are `*bool`, modelled as `Option<bool>`, so "unset" and
`false` stay distinct.

Two behaviours of the naming resolvers follow from the test lines alone:

- The label cut is not always the first 63 characters. The 68-character name
  override at `pkg/registry/defaults_test.go:593-596` comes back with 62
  characters, so the cut also drops the `-` it leaves at the end. `Truncate`
  drops one trailing `-` after a cut. It does nothing to a name that already
  fits, because no test shows a name that fits being changed.
- A CR name that contains the app name is still cut to the limit:
  `pkg/registry/defaults_test.go:672-678` holds for every `DefaultAppName` only
  under that reading. The containment test is a substring test, not a prefix
  test (`ContainmentIsSubstringNotPrefix`).

## Model

| member | source | states |
|---|---|---|
| `Names.Truncate` | pkg/registry/defaults_test.go:589-596 | the result is the label cut of the input: the input itself if it fits 63 characters; otherwise its first 63, or 62 when the 63rd is `-` |
| `Names.TrimDashSuffix` | pkg/registry/defaults_test.go:593-596 | drops exactly one trailing `-` and nothing else; the result is a prefix of the input |
| `Names.LabelCutUnique` | pkg/registry/defaults_test.go:589-596 | the label-cut specification admits exactly one result per input |
| `Names.ContainsIffOccurs` | pkg/registry/defaults_test.go:689-699 | `Names.Contains`, the model of Go's `strings.Contains` used for names, holds iff the app name occurs at some index of the CR name (a substring test) |
| `Names.TruncateAbsorbsSuffix` | pkg/registry/defaults_test.go:671-678 | a name that was cut does not grow: appending `-` and a non-empty suffix, then cutting again, gives the same name |
| `Registry.IsTLSEnabled` | pkg/registry/defaults_test.go:30-78 | TLS is on unless `tls.enabled` is explicitly `false`; unset means on |
| `Registry.IsStorageEnabled` | pkg/registry/defaults_test.go:80-128 | storage is on only when `storage.enabled` is explicitly `true`; unset means off |
| `Registry.GetDevfileRegistryVolumeSource` | pkg/registry/defaults_test.go:130-197 | a claim exists iff storage is explicitly enabled, and its name is the claim-naming helper's name for the CR; otherwise the zero volume source |
| `Registry.GetDevfileRegistrySpecContainer` | pkg/registry/defaults_test.go:409-437 | a set quantity that parses is returned as parsed; an empty or unparseable one gives the parsed default, which must parse |
| `Registry.GetDevfileIndexMemoryLimit` | pkg/registry/defaults_test.go:199-235 | the devfile index limit is the parsed user quantity when set and valid, else the parsed devfile-index default |
| `Registry.GetOCIRegistryMemoryLimit` | pkg/registry/defaults_test.go:237-273 | the OCI registry limit is the parsed user quantity when set and valid, else the parsed OCI-registry default |
| `Registry.GetRegistryViewerMemoryLimit` | pkg/registry/defaults_test.go:275-311 | the registry viewer limit is the parsed user quantity when set and valid, else the parsed viewer default |
| `Registry.GetDevfileRegistryVolumeSize` | pkg/registry/defaults_test.go:313-347 | the set volume size is returned as text, unparsed and uncut; unset gives the default size |
| `Registry.IsTelemetryEnabled` | pkg/registry/defaults_test.go:349-407 | telemetry is on iff the telemetry key is non-empty; the registry name does not matter |
| `Registry.GetK8sIngressClass` | pkg/registry/defaults_test.go:439-474 | the set ingress class is returned unchanged; unset gives the default class |
| `Registry.GetHostnameOverride` | pkg/registry/defaults_test.go:476-505 | the set hostname override is returned unchanged (not cut); unset gives its default |
| `Registry.GetNameOverride` | pkg/registry/defaults_test.go:507-536 | the set name override is returned unchanged (not cut); unset gives its default |
| `Registry.GetFullnameOverride` | pkg/registry/defaults_test.go:538-567 | the set full-name override is returned unchanged (not cut); unset gives its default |
| `Registry.GetAppName` | pkg/registry/defaults_test.go:569-613 | a missing CR or an unset name override gives `DefaultAppName`; otherwise the result is the label cut of the override |
| `Registry.GetAppFullName` | pkg/registry/defaults_test.go:615-716 | a missing CR gives `DefaultAppName`; a set full-name override wins and is cut; otherwise the cut CR name if it contains the app name, else the cut of `name-appName`, else (no CR name) the app name; every result fits 63 characters or is `DefaultAppName` |
| `Registry.IsIngressSkipped` | pkg/registry/defaults_test.go:718-760 | ingress is configured iff a CR is present and its ingress domain is non-empty |
| `RegistryProperties.TlsUnsetIsNotFalse` | pkg/registry/defaults_test.go:50-67 | an unset TLS flag and an explicit `false` resolve to different values |
| `RegistryProperties.WriteBackIsFixpoint` | pkg/registry/defaults_test.go:30-567 | a property of the model only, not one the tests exercise: writing a resolved toggle or passthrough value back into its field and resolving again gives the same value |
| `RegistryProperties.MemoryLimitsIndependent` | pkg/registry/defaults_test.go:199-311 | changing one container's memory limit does not change the other two resolved limits |
| `RegistryProperties.VolumeSourceIgnoresVolumeSize` | pkg/registry/defaults_test.go:130-186 | whether a claim is produced does not depend on the requested volume size |
| `RegistryProperties.NilResolvesLikeEmptyRegistry` | pkg/registry/defaults_test.go:575-749 | a missing CR and an empty CR give the same app name, full name and ingress flag |
| `RegistryProperties.AppNameIgnoresName` | pkg/registry/defaults_test.go:569-602 | the app name never depends on the CR name |
| `RegistryProperties.AppNameBounded` | pkg/registry/defaults_test.go:589-596 | every app name fits 63 characters, provided the default does |
| `RegistryProperties.AppFullNameBounded` | pkg/registry/defaults_test.go:644-705 | every full name fits 63 characters, provided the default does |
| `RegistryProperties.DefaultAppNameFitsLabel` | pkg/registry/defaults_test.go:680-687 | the default app name that the naming tests imply is no longer than "devfile-registry-test", so it fits a label |
| `RegistryProperties.AppFullNameStartsWithName` | pkg/registry/defaults_test.go:662-679 | without a full-name override, the full name begins with the CR name, up to the first 62 characters |
| `RegistryProperties.AppFullNameContainsAppName` | pkg/registry/defaults_test.go:662-699 | without a full-name override, and when nothing needs cutting, the full name contains the app name |
| `RegistryProperties.AppFullNameStable` | pkg/registry/defaults_test.go:662-699 | renaming a CR to its own full name leaves its full name unchanged |
| `RegistryCases.TlsTable` | pkg/registry/defaults_test.go:39-67 | the three TLS cases: set true, set false, unset gives true |
| `RegistryCases.StorageTable` | pkg/registry/defaults_test.go:89-117 | the three storage cases: set true, set false, unset gives false |
| `RegistryCases.VolumeSourceTable` | pkg/registry/defaults_test.go:163-187 | enabled storage gives the named claim; disabled or unset storage gives the zero volume source |
| `RegistryCases.MemoryLimitTables` | pkg/registry/defaults_test.go:199-311 | "5Gi" is used as given; an unset limit gives each container's parsed default |
| `RegistryCases.SpecContainerTable` | pkg/registry/defaults_test.go:416-427 | "256Mi" is used as given; the unparseable "test" gives the parsed "512Mi" default |
| `RegistryCases.VolumeSizeTable` | pkg/registry/defaults_test.go:319-336 | "5Gi" is passed through; unset gives the default size |
| `RegistryCases.TelemetryTable` | pkg/registry/defaults_test.go:355-396 | missing key, empty key and empty telemetry block give off; key "abcdef" gives on |
| `RegistryCases.PassthroughTables` | pkg/registry/defaults_test.go:439-567 | the ingress class and the hostname, name and full-name overrides pass set values through, and give their defaults when unset |
| `RegistryCases.AppNameTable` | pkg/registry/defaults_test.go:575-602 | empty CR and missing CR give the default; "dr" gives "dr"; the 68-character override gives its 62-character cut |
| `RegistryCases.AppFullNameTable` | pkg/registry/defaults_test.go:621-705 | the ten full-name cases, given what the tests imply about `DefaultAppName` |
| `RegistryCases.ContainmentIsSubstringNotPrefix` | pkg/registry/defaults_test.go:689-699 | the CR name "xdrtest" does not start with app name "dr" but contains it, so it is kept as the full name |
| `RegistryCases.IngressSkippedTable` | pkg/registry/defaults_test.go:725-749 | no ingress domain gives skipped; domain "test" gives not skipped; a missing CR gives skipped |

## Left out

- The values of the compiled-in defaults (`DefaultAppName`, `DefaultK8sIngressClass`, the override, volume-size and memory-limit defaults) are not part of this model. They are unspecified constants. The predicate `DefaultsAsTested` states what the naming tests imply about `DefaultAppName`: "devfile-registry-test" contains it and "dr" does not.
- Kubernetes quantity parsing (`resource.ParseQuantity` / `MustParse`) is not part of this model. It is the parameter `parse`, which returns `None` on a syntax error. The defaults must parse, because `MustParse` panics on a malformed default. The model tests for an empty quantity explicitly; the Kubernetes parser rejects `""` anyway.
- The PVC naming helper `PVCName` is not part of this model. It is the parameter `pvcName`.
- Go's `len` counts bytes and the model counts characters. The two agree for the ASCII names Kubernetes allows.
- Names.Truncate: drops at most one trailing `-` after a cut, and does nothing to names that already fit. No test shows a name with several trailing dashes, or a short name ending in `-`.
- Registry.GetAppFullName: checks containment before checking for an empty CR name. Both orders give the same result, because an empty name contains only an empty app name.
- Only `getAppName`, `getAppFullName` and `IsIngressSkipped` accept a missing CR. The tests never pass a nil CR to the other resolvers, which take the CR record directly.
- Only the CR fields that the resolvers read are modelled. The CR is flattened into one record. Object construction, images and other spec fields, the controller, and the test harness itself are left out.
