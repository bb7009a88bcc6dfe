/**
 * The defaulting layer of the DevfileRegistry operator (package `registry`):
 * pure resolvers that read a DevfileRegistry custom resource and return either
 * the value the user set or a compiled-in default.
 *
 * Go's zero values carry the meaning "unset": an empty string is an unset
 * string field, and the two optional booleans are pointers, modelled as
 * `Option<bool>` so that "unset" and "false" stay apart.
 */
module Registry {
  import opened Options
  import opened Names

  /** The fields of a DevfileRegistry resource that the resolvers read, flattened. */
  datatype DevfileRegistry = DevfileRegistry(
    name: string,                      // metadata.name
    tlsEnabled: Option<bool>,          // spec.tls.enabled
    storageEnabled: Option<bool>,      // spec.storage.enabled
    registryVolumeSize: string,        // spec.storage.registryVolumeSize
    devfileIndexMemoryLimit: string,   // spec.devfileIndex.memoryLimit
    ociRegistryMemoryLimit: string,    // spec.ociRegistry.memoryLimit
    registryViewerMemoryLimit: string, // spec.registryViewer.memoryLimit
    telemetryRegistryName: string,     // spec.telemetry.registryName
    telemetryKey: string,              // spec.telemetry.key
    ingressClass: string,              // spec.k8s.ingressClass
    ingressDomain: string,             // spec.k8s.ingressDomain
    hostnameOverride: string,          // spec.hostnameOverride
    nameOverride: string,              // spec.nameOverride
    fullnameOverride: string)          // spec.fullnameOverride

  /** A resource with every field at its zero value (`DevfileRegistry{}` in Go). */
  const EmptyRegistry := DevfileRegistry("", None, None, "", "", "", "", "", "", "", "", "", "", "")

  /** The persistent-volume-claim part of a Kubernetes volume source. */
  datatype PersistentVolumeClaimSource = PersistentVolumeClaimSource(claimName: string)

  /** A Kubernetes volume source, reduced to the one kind the resolver produces. */
  datatype VolumeSource = VolumeSource(persistentVolumeClaim: Option<PersistentVolumeClaimSource>)

  /** The zero volume source (`corev1.VolumeSource{}`): no persistent claim. */
  const EmptyVolumeSource := VolumeSource(None)

  // The compiled-in defaults.  Their values live in a file that is not part of
  // this model, so they are left unspecified here; `DefaultsAsTested` collects
  // what the test tables reveal about them.
  const DefaultAppName: string
  const DefaultNameOverride: string
  const DefaultFullnameOverride: string
  const DefaultHostnameOverride: string
  const DefaultK8sIngressClass: string
  const DefaultDevfileRegistryVolumeSize: string
  const DefaultDevfileIndexMemoryLimit: string
  const DefaultOCIRegistryMemoryLimit: string
  const DefaultRegistryViewerMemoryLimit: string

  /**
   * What the naming tests imply about `DefaultAppName`: the resource named
   * "devfile-registry-test" already contains it (so the name is kept as it is),
   * and the resource named "dr" does not (so the app name is appended).
   */
  predicate DefaultsAsTested()
  {
    && Contains("devfile-registry-test", DefaultAppName)
    && !Contains("dr", DefaultAppName)
  }

  // ---------------------------------------------------------------------------
  // Toggles and flags

  /** TLS is on unless the resource explicitly turns it off. */
  function IsTLSEnabled(cr: DevfileRegistry): (r: bool)
    ensures r <==> cr.tlsEnabled != Some(false)
  {
    match cr.tlsEnabled
    case Some(enabled) => enabled
    case None => true
  }

  /** Storage is off unless the resource explicitly turns it on. */
  function IsStorageEnabled(cr: DevfileRegistry): (r: bool)
    ensures r <==> cr.storageEnabled == Some(true)
  {
    match cr.storageEnabled
    case Some(enabled) => enabled
    case None => false
  }

  /** Telemetry is on exactly when a telemetry key is set; the registry name plays no part. */
  function IsTelemetryEnabled(cr: DevfileRegistry): (r: bool)
    ensures r <==> |cr.telemetryKey| > 0
  {
    cr.telemetryKey != ""
  }

  /** Ingress is skipped when there is no resource or no ingress domain is set. */
  function IsIngressSkipped(cr: Option<DevfileRegistry>): (r: bool)
    ensures !r <==> cr.Some? && |cr.value.ingressDomain| > 0
  {
    match cr
    case None => true
    case Some(c) => c.ingressDomain == ""
  }

  // ---------------------------------------------------------------------------
  // Volumes

  /**
   * The volume the registry mounts: a claim named by `pvcName` when storage is
   * enabled, otherwise the zero volume source (an ephemeral volume).
   * `pvcName` is the operator's claim-naming helper, which is not part of this model.
   */
  function GetDevfileRegistryVolumeSource(cr: DevfileRegistry, pvcName: DevfileRegistry -> string): (v: VolumeSource)
    ensures v.persistentVolumeClaim.Some? <==> cr.storageEnabled == Some(true)
    ensures v.persistentVolumeClaim.Some? ==> v.persistentVolumeClaim.value.claimName == pvcName(cr)
    ensures v.persistentVolumeClaim.None? ==> v == EmptyVolumeSource
  {
    if IsStorageEnabled(cr) then
      VolumeSource(Some(PersistentVolumeClaimSource(pvcName(cr))))
    else
      EmptyVolumeSource
  }

  /** The user's string when it is set, `fallback` otherwise. */
  function OrDefault(value: string, fallback: string): (r: string)
    ensures value != "" ==> r == value
    ensures value == "" ==> r == fallback
  {
    if value != "" then value else fallback
  }

  /** The requested registry volume size, passed through as text (never parsed here). */
  function GetDevfileRegistryVolumeSize(cr: DevfileRegistry): (r: string)
    ensures cr.registryVolumeSize != "" ==> r == cr.registryVolumeSize
    ensures cr.registryVolumeSize == "" ==> r == DefaultDevfileRegistryVolumeSize
  {
    OrDefault(cr.registryVolumeSize, DefaultDevfileRegistryVolumeSize)
  }

  // ---------------------------------------------------------------------------
  // Memory limits

  /**
   * Resolves a container's memory limit: the user's quantity when it is set and
   * parses, otherwise the parsed default.  `parse` stands for Kubernetes'
   * quantity parser (None on a syntax error); the default must parse, since a
   * malformed default makes the operator panic.
   */
  function GetDevfileRegistrySpecContainer<Q>(quantity: string, defaultValue: string, parse: string -> Option<Q>): (q: Q)
    requires parse(defaultValue).Some?
    ensures quantity != "" && parse(quantity).Some? ==> q == parse(quantity).value
    ensures quantity == "" || parse(quantity).None? ==> q == parse(defaultValue).value
  {
    if quantity != "" && parse(quantity).Some? then parse(quantity).value else parse(defaultValue).value
  }

  /** Memory limit of the devfile index container. */
  function GetDevfileIndexMemoryLimit<Q>(cr: DevfileRegistry, parse: string -> Option<Q>): (q: Q)
    requires parse(DefaultDevfileIndexMemoryLimit).Some?
    ensures cr.devfileIndexMemoryLimit != "" && parse(cr.devfileIndexMemoryLimit).Some? ==> parse(cr.devfileIndexMemoryLimit) == Some(q)
    ensures cr.devfileIndexMemoryLimit == "" || parse(cr.devfileIndexMemoryLimit).None? ==> Some(q) == parse(DefaultDevfileIndexMemoryLimit)
  {
    GetDevfileRegistrySpecContainer(cr.devfileIndexMemoryLimit, DefaultDevfileIndexMemoryLimit, parse)
  }

  /** Memory limit of the OCI registry container. */
  function GetOCIRegistryMemoryLimit<Q>(cr: DevfileRegistry, parse: string -> Option<Q>): (q: Q)
    requires parse(DefaultOCIRegistryMemoryLimit).Some?
    ensures cr.ociRegistryMemoryLimit != "" && parse(cr.ociRegistryMemoryLimit).Some? ==> parse(cr.ociRegistryMemoryLimit) == Some(q)
    ensures cr.ociRegistryMemoryLimit == "" || parse(cr.ociRegistryMemoryLimit).None? ==> Some(q) == parse(DefaultOCIRegistryMemoryLimit)
  {
    GetDevfileRegistrySpecContainer(cr.ociRegistryMemoryLimit, DefaultOCIRegistryMemoryLimit, parse)
  }

  /** Memory limit of the registry viewer container. */
  function GetRegistryViewerMemoryLimit<Q>(cr: DevfileRegistry, parse: string -> Option<Q>): (q: Q)
    requires parse(DefaultRegistryViewerMemoryLimit).Some?
    ensures cr.registryViewerMemoryLimit != "" && parse(cr.registryViewerMemoryLimit).Some? ==> parse(cr.registryViewerMemoryLimit) == Some(q)
    ensures cr.registryViewerMemoryLimit == "" || parse(cr.registryViewerMemoryLimit).None? ==> Some(q) == parse(DefaultRegistryViewerMemoryLimit)
  {
    GetDevfileRegistrySpecContainer(cr.registryViewerMemoryLimit, DefaultRegistryViewerMemoryLimit, parse)
  }

  // ---------------------------------------------------------------------------
  // Ingress and overrides (raw passthrough, never truncated)

  function GetK8sIngressClass(cr: DevfileRegistry): (r: string)
    ensures cr.ingressClass != "" ==> r == cr.ingressClass
    ensures cr.ingressClass == "" ==> r == DefaultK8sIngressClass
  {
    OrDefault(cr.ingressClass, DefaultK8sIngressClass)
  }

  function GetHostnameOverride(cr: DevfileRegistry): (r: string)
    ensures cr.hostnameOverride != "" ==> r == cr.hostnameOverride
    ensures cr.hostnameOverride == "" ==> r == DefaultHostnameOverride
  {
    OrDefault(cr.hostnameOverride, DefaultHostnameOverride)
  }

  function GetNameOverride(cr: DevfileRegistry): (r: string)
    ensures cr.nameOverride != "" ==> r == cr.nameOverride
    ensures cr.nameOverride == "" ==> r == DefaultNameOverride
  {
    OrDefault(cr.nameOverride, DefaultNameOverride)
  }

  function GetFullnameOverride(cr: DevfileRegistry): (r: string)
    ensures cr.fullnameOverride != "" ==> r == cr.fullnameOverride
    ensures cr.fullnameOverride == "" ==> r == DefaultFullnameOverride
  {
    OrDefault(cr.fullnameOverride, DefaultFullnameOverride)
  }

  // ---------------------------------------------------------------------------
  // Names

  /** The application name: the name override cut to the label limit, or the default (not cut). */
  function GetAppName(cr: Option<DevfileRegistry>): (r: string)
    ensures cr.None? || cr.value.nameOverride == "" ==> r == DefaultAppName
    ensures cr.Some? && cr.value.nameOverride != "" ==> IsLabelCut(cr.value.nameOverride, r)
  {
    match cr
    case None => DefaultAppName
    case Some(c) => if c.nameOverride != "" then Truncate(c.nameOverride) else DefaultAppName
  }

  /**
   * The full application name.  A full-name override wins; otherwise the
   * resource name is kept when it already contains the application name
   * anywhere, and gets "-<app name>" appended when it does not.  The
   * composed name is cut to the label limit as a whole.
   */
  function GetAppFullName(cr: Option<DevfileRegistry>): (r: string)
    ensures cr.None? ==> r == DefaultAppName
    ensures |r| <= MaxNameLength || r == DefaultAppName
    ensures cr.Some? && cr.value.fullnameOverride != "" ==> IsLabelCut(cr.value.fullnameOverride, r)
    ensures cr.Some? && cr.value.fullnameOverride == "" && Contains(cr.value.name, GetAppName(cr)) ==>
              IsLabelCut(cr.value.name, r)
    ensures cr.Some? && cr.value.fullnameOverride == "" && !Contains(cr.value.name, GetAppName(cr)) && cr.value.name != "" ==>
              IsLabelCut(cr.value.name + "-" + GetAppName(cr), r)
    ensures cr.Some? && cr.value.fullnameOverride == "" && cr.value.name == "" ==> r == GetAppName(cr)
  {
    match cr
    case None => DefaultAppName
    case Some(c) =>
      if c.fullnameOverride != "" then
        Truncate(c.fullnameOverride)
      else
        var appName := GetAppName(cr);
        if Contains(c.name, appName) then
          Truncate(c.name)
        else if c.name != "" then
          Truncate(c.name + "-" + appName)
        else
          appName
  }
}
