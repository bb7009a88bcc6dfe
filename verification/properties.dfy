/** Properties of the resolvers that relate several calls or hold for every input. */
module RegistryProperties {
  import opened Options
  import opened Names
  import opened Registry

  /** An unset TLS flag and an explicit `false` resolve differently. */
  lemma TlsUnsetIsNotFalse(cr: DevfileRegistry)
    ensures IsTLSEnabled(cr.(tlsEnabled := None)) != IsTLSEnabled(cr.(tlsEnabled := Some(false)))
  {
  }

  /**
   * Writing a resolved value back into its field and resolving again gives the
   * same value: every toggle and passthrough getter is idempotent.
   */
  lemma WriteBackIsFixpoint(cr: DevfileRegistry)
    ensures IsTLSEnabled(cr.(tlsEnabled := Some(IsTLSEnabled(cr)))) == IsTLSEnabled(cr)
    ensures IsStorageEnabled(cr.(storageEnabled := Some(IsStorageEnabled(cr)))) == IsStorageEnabled(cr)
    ensures GetDevfileRegistryVolumeSize(cr.(registryVolumeSize := GetDevfileRegistryVolumeSize(cr)))
            == GetDevfileRegistryVolumeSize(cr)
    ensures GetK8sIngressClass(cr.(ingressClass := GetK8sIngressClass(cr))) == GetK8sIngressClass(cr)
    ensures GetHostnameOverride(cr.(hostnameOverride := GetHostnameOverride(cr))) == GetHostnameOverride(cr)
    ensures GetNameOverride(cr.(nameOverride := GetNameOverride(cr))) == GetNameOverride(cr)
    ensures GetFullnameOverride(cr.(fullnameOverride := GetFullnameOverride(cr))) == GetFullnameOverride(cr)
  {
  }

  /** Each container's memory limit depends on its own field only. */
  lemma MemoryLimitsIndependent<Q>(cr: DevfileRegistry, limit: string, parse: string -> Option<Q>)
    requires parse(DefaultDevfileIndexMemoryLimit).Some?
    requires parse(DefaultOCIRegistryMemoryLimit).Some?
    requires parse(DefaultRegistryViewerMemoryLimit).Some?
    ensures GetOCIRegistryMemoryLimit(cr.(devfileIndexMemoryLimit := limit), parse) == GetOCIRegistryMemoryLimit(cr, parse)
    ensures GetRegistryViewerMemoryLimit(cr.(devfileIndexMemoryLimit := limit), parse) == GetRegistryViewerMemoryLimit(cr, parse)
    ensures GetDevfileIndexMemoryLimit(cr.(ociRegistryMemoryLimit := limit), parse) == GetDevfileIndexMemoryLimit(cr, parse)
    ensures GetRegistryViewerMemoryLimit(cr.(ociRegistryMemoryLimit := limit), parse) == GetRegistryViewerMemoryLimit(cr, parse)
    ensures GetDevfileIndexMemoryLimit(cr.(registryViewerMemoryLimit := limit), parse) == GetDevfileIndexMemoryLimit(cr, parse)
    ensures GetOCIRegistryMemoryLimit(cr.(registryViewerMemoryLimit := limit), parse) == GetOCIRegistryMemoryLimit(cr, parse)
  {
  }

  /** The volume source does not depend on the requested volume size. */
  lemma VolumeSourceIgnoresVolumeSize(cr: DevfileRegistry, size: string, pvcName: DevfileRegistry -> string)
    ensures GetDevfileRegistryVolumeSource(cr.(registryVolumeSize := size), pvcName).persistentVolumeClaim.Some?
            == GetDevfileRegistryVolumeSource(cr, pvcName).persistentVolumeClaim.Some?
  {
  }

  /** A missing resource resolves to the same names and ingress flag as an empty one. */
  lemma NilResolvesLikeEmptyRegistry()
    ensures GetAppName(None) == GetAppName(Some(EmptyRegistry))
    ensures GetAppFullName(None) == GetAppFullName(Some(EmptyRegistry))
    ensures IsIngressSkipped(None) == IsIngressSkipped(Some(EmptyRegistry))
  {
  }

  /** The application name never depends on the resource name. */
  lemma AppNameIgnoresName(c: DevfileRegistry, name: string)
    ensures GetAppName(Some(c.(name := name))) == GetAppName(Some(c))
  {
  }

  /** When the default fits a label, so does every application name. */
  lemma AppNameBounded(cr: Option<DevfileRegistry>)
    requires |DefaultAppName| <= MaxNameLength
    ensures |GetAppName(cr)| <= MaxNameLength
  {
  }

  /** When the default fits a label, so does every full application name. */
  lemma AppFullNameBounded(cr: Option<DevfileRegistry>)
    requires |DefaultAppName| <= MaxNameLength
    ensures |GetAppFullName(cr)| <= MaxNameLength
  {
  }

  /** The default the naming tests imply is at most as long as "devfile-registry-test". */
  lemma DefaultAppNameFitsLabel()
    requires DefaultsAsTested()
    ensures |DefaultAppName| <= |"devfile-registry-test"| < MaxNameLength
  {
    ContainsLength("devfile-registry-test", DefaultAppName);
  }

  /**
   * Without a full-name override, the full name of a resource begins with the
   * resource name, as much of it as the label limit leaves room for.
   */
  lemma AppFullNameStartsWithName(c: DevfileRegistry)
    requires c.fullnameOverride == ""
    ensures c.name[..Min(|c.name|, MaxNameLength - 1)] <= GetAppFullName(Some(c))
  {
    var appName := GetAppName(Some(c));
    var full := GetAppFullName(Some(c));
    var k := Min(|c.name|, MaxNameLength - 1);
    if !Contains(c.name, appName) && c.name != "" {
      var composed := c.name + "-" + appName;
      assert k <= |full|;
      assert full == composed[..|full|];
      assert composed[..k] == c.name[..k];
    }
  }

  /**
   * Without a full-name override, and when nothing is cut, the full name
   * contains the application name.
   */
  lemma AppFullNameContainsAppName(c: DevfileRegistry)
    requires c.fullnameOverride == ""
    requires |c.name| + 1 + |GetAppName(Some(c))| <= MaxNameLength
    ensures Contains(GetAppFullName(Some(c)), GetAppName(Some(c)))
  {
    var appName := GetAppName(Some(c));
    if Contains(c.name, appName) {
      TruncateFits(c.name);
    } else if c.name != "" {
      TruncateFits(c.name + "-" + appName);
      ContainsSuffix(c.name + "-", appName);
    } else {
      ContainsSuffix("", appName);
      assert "" + appName == appName;
    }
  }

  /**
   * Naming a resource after its own full name is stable: the full name of the
   * renamed resource is the same full name.
   */
  lemma AppFullNameStable(c: DevfileRegistry)
    requires |DefaultAppName| <= MaxNameLength
    ensures GetAppFullName(Some(c.(name := GetAppFullName(Some(c))))) == GetAppFullName(Some(c))
  {
    var full := GetAppFullName(Some(c));
    var appName := GetAppName(Some(c));
    AppNameIgnoresName(c, full);
    if c.fullnameOverride == "" {
      TruncateFits(full);
      if c.name == "" {
        ContainsSuffix("", appName);
        assert "" + appName == appName;
      }
      if !Contains(full, appName) {
        // The app name is missing, so the full name came from a cut.
        assert appName != "" by {
          assert "" <= full;
        }
        var source := if Contains(c.name, appName) then c.name else c.name + "-" + appName;
        if |source| <= MaxNameLength {
          if Contains(c.name, appName) {
            TruncateFits(c.name);
          } else {
            AppFullNameContainsAppName(c);
          }
        }
        assert full == Truncate(source);
        TruncateAbsorbsSuffix(source, appName);
      }
    }
  }
}
