/** The cases of the resolvers' test tables, each stated for the model. */
module RegistryCases {
  import opened Options
  import opened Names
  import opened Registry

  lemma TlsTable()
    ensures IsTLSEnabled(EmptyRegistry.(tlsEnabled := Some(true)))
    ensures !IsTLSEnabled(EmptyRegistry.(tlsEnabled := Some(false)))
    ensures IsTLSEnabled(EmptyRegistry)
  {
  }

  lemma StorageTable()
    ensures IsStorageEnabled(EmptyRegistry.(storageEnabled := Some(true)))
    ensures !IsStorageEnabled(EmptyRegistry.(storageEnabled := Some(false)))
    ensures !IsStorageEnabled(EmptyRegistry)
  {
  }

  lemma VolumeSourceTable(pvcName: DevfileRegistry -> string)
    ensures var cr := EmptyRegistry.(name := "devfileregistry-test", storageEnabled := Some(true));
            GetDevfileRegistryVolumeSource(cr, pvcName) == VolumeSource(Some(PersistentVolumeClaimSource(pvcName(cr))))
    ensures var cr := EmptyRegistry.(name := "devfileregistry-test", storageEnabled := Some(false));
            GetDevfileRegistryVolumeSource(cr, pvcName) == EmptyVolumeSource
    ensures var cr := EmptyRegistry.(name := "devfileregistry-test");
            GetDevfileRegistryVolumeSource(cr, pvcName) == EmptyVolumeSource
  {
  }

  /** The three memory-limit tables, for any parser that accepts "5Gi" and the defaults. */
  lemma MemoryLimitTables<Q>(parse: string -> Option<Q>)
    requires parse("5Gi").Some?
    requires parse(DefaultDevfileIndexMemoryLimit).Some?
    requires parse(DefaultOCIRegistryMemoryLimit).Some?
    requires parse(DefaultRegistryViewerMemoryLimit).Some?
    ensures GetDevfileIndexMemoryLimit(EmptyRegistry.(devfileIndexMemoryLimit := "5Gi"), parse) == parse("5Gi").value
    ensures GetDevfileIndexMemoryLimit(EmptyRegistry, parse) == parse(DefaultDevfileIndexMemoryLimit).value
    ensures GetOCIRegistryMemoryLimit(EmptyRegistry.(ociRegistryMemoryLimit := "5Gi"), parse) == parse("5Gi").value
    ensures GetOCIRegistryMemoryLimit(EmptyRegistry, parse) == parse(DefaultOCIRegistryMemoryLimit).value
    ensures GetRegistryViewerMemoryLimit(EmptyRegistry.(registryViewerMemoryLimit := "5Gi"), parse) == parse("5Gi").value
    ensures GetRegistryViewerMemoryLimit(EmptyRegistry, parse) == parse(DefaultRegistryViewerMemoryLimit).value
  {
  }

  /** A well-formed quantity is used; "test" does not parse, so the default is. */
  lemma SpecContainerTable<Q>(parse: string -> Option<Q>)
    requires parse("256Mi").Some? && parse("512Mi").Some? && parse("test").None?
    ensures GetDevfileRegistrySpecContainer("256Mi", "512Mi", parse) == parse("256Mi").value
    ensures GetDevfileRegistrySpecContainer("test", "512Mi", parse) == parse("512Mi").value
  {
  }

  lemma VolumeSizeTable()
    ensures GetDevfileRegistryVolumeSize(EmptyRegistry.(registryVolumeSize := "5Gi")) == "5Gi"
    ensures GetDevfileRegistryVolumeSize(EmptyRegistry) == DefaultDevfileRegistryVolumeSize
  {
  }

  lemma TelemetryTable()
    ensures !IsTelemetryEnabled(EmptyRegistry.(telemetryRegistryName := "test"))
    ensures IsTelemetryEnabled(EmptyRegistry.(telemetryRegistryName := "test", telemetryKey := "abcdef"))
    ensures !IsTelemetryEnabled(EmptyRegistry.(telemetryRegistryName := "test", telemetryKey := ""))
    ensures !IsTelemetryEnabled(EmptyRegistry)
  {
  }

  lemma PassthroughTables()
    ensures GetK8sIngressClass(EmptyRegistry.(ingressClass := "test")) == "test"
    ensures GetK8sIngressClass(EmptyRegistry) == DefaultK8sIngressClass
    ensures GetHostnameOverride(EmptyRegistry.(hostnameOverride := "192.168.1.123.nip.io")) == "192.168.1.123.nip.io"
    ensures GetHostnameOverride(EmptyRegistry) == DefaultHostnameOverride
    ensures GetNameOverride(EmptyRegistry.(nameOverride := "devfile-registry-test")) == "devfile-registry-test"
    ensures GetNameOverride(EmptyRegistry) == DefaultNameOverride
    ensures GetFullnameOverride(EmptyRegistry.(fullnameOverride := "devfile-registry-test")) == "devfile-registry-test"
    ensures GetFullnameOverride(EmptyRegistry) == DefaultFullnameOverride
  {
  }

  /** The long override of the naming tables: its 63rd character is a '-', which the cut drops. */
  const LongName := "devfile-registry-testregistry-devfile-io-k8s-prow-environment1-tf433"
  const LongNameCut := "devfile-registry-testregistry-devfile-io-k8s-prow-environment1"
  const LongCrName := "testregistry-devfile-io-k8s-prow-af4325d2dcb2d0rte1-devfile-registry"
  const LongCrNameCut := "testregistry-devfile-io-k8s-prow-af4325d2dcb2d0rte1-devfile-reg"

  lemma AppNameTable()
    ensures GetAppName(Some(EmptyRegistry)) == DefaultAppName
    ensures GetAppName(Some(EmptyRegistry.(nameOverride := "dr"))) == "dr"
    ensures GetAppName(Some(EmptyRegistry.(nameOverride := LongName))) == LongNameCut
    ensures GetAppName(None) == DefaultAppName
  {
    assert LongName[MaxNameLength - 1] == '-';
    assert LongName[..MaxNameLength - 1] == LongNameCut;
  }

  lemma AppFullNameTable()
    requires DefaultsAsTested()
    ensures GetAppFullName(Some(EmptyRegistry)) == DefaultAppName
    ensures GetAppFullName(Some(EmptyRegistry.(nameOverride := "dr"))) == "dr"
    ensures GetAppFullName(Some(EmptyRegistry.(nameOverride := LongName))) == LongNameCut
    ensures GetAppFullName(Some(EmptyRegistry.(fullnameOverride := "dr"))) == "dr"
    ensures GetAppFullName(Some(EmptyRegistry.(fullnameOverride := LongName))) == LongNameCut
    ensures GetAppFullName(Some(EmptyRegistry.(name := "dr"))) == "dr-" + DefaultAppName
    ensures GetAppFullName(Some(EmptyRegistry.(name := LongCrName))) == LongCrNameCut
    ensures GetAppFullName(Some(EmptyRegistry.(name := "devfile-registry-test"))) == "devfile-registry-test"
    ensures GetAppFullName(Some(EmptyRegistry.(name := "dr-test", nameOverride := "dr"))) == "dr-test"
    ensures GetAppFullName(None) == DefaultAppName
  {
    assert LongName[MaxNameLength - 1] == '-';
    assert LongName[..MaxNameLength - 1] == LongNameCut;
    assert LongCrName[..MaxNameLength] == LongCrNameCut;
    ContainsLength("devfile-registry-test", DefaultAppName);
    assert "dr" + "-" + DefaultAppName == "dr-" + DefaultAppName;
    TruncateAppendOver(LongCrName, "-" + DefaultAppName);
    assert LongCrName + "-" + DefaultAppName == LongCrName + ("-" + DefaultAppName);
    assert Contains("dr-test", "dr");
  }

  /**
   * The containment test looks for the application name anywhere in the
   * resource name, not only at its start.
   */
  lemma ContainmentIsSubstringNotPrefix()
    ensures !("dr" <= "xdrtest")
    ensures GetAppFullName(Some(EmptyRegistry.(name := "xdrtest", nameOverride := "dr"))) == "xdrtest"
  {
    assert "xdrtest"[0] != "dr"[0];
    assert Contains("drtest", "dr");
  }

  lemma IngressSkippedTable()
    ensures IsIngressSkipped(Some(EmptyRegistry))
    ensures !IsIngressSkipped(Some(EmptyRegistry.(ingressDomain := "test")))
    ensures IsIngressSkipped(None)
  {
  }
}
