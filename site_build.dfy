/**
 * SiteBuildOperation: the export operation that builds the features of an
 * update site. On top of the per-platform build properties of a feature
 * export it asks for p2 metadata when the export goes to a directory, and
 * it requests the feature and plug-in post-processing hook files.
 */
module SiteBuild {
  import opened Wrappers

  /** Keys and values of the build properties (PDE Build and p2 constants). */
  const TARGET_P2_METADATA := "generate.p2.metadata"
  const PROPERTY_P2_FLAVOR := "p2.flavor"
  const PROPERTY_P2_PUBLISH_ARTIFACTS := "p2.publish.artifacts"
  const PROPERTY_P2_METADATA_REPO := "p2.metadata.repo"
  const PROPERTY_P2_ARTIFACT_REPO := "p2.artifact.repo"
  const TRUE := "true"
  const FALSE := "false"
  const P2_FLAVOR_DEFAULT := "tooling"

  /** Names of the two post-processing hook files. */
  const FEATURE_POST_PROCESSING := "features.postProcessingSteps.properties"
  const PLUGIN_POST_PROCESSING := "plugins.postProcessingSteps.properties"

  /** The five p2 keys are five different keys. */
  lemma P2KeysDistinct()
    ensures TARGET_P2_METADATA != PROPERTY_P2_FLAVOR && TARGET_P2_METADATA != PROPERTY_P2_PUBLISH_ARTIFACTS
    ensures TARGET_P2_METADATA != PROPERTY_P2_METADATA_REPO && TARGET_P2_METADATA != PROPERTY_P2_ARTIFACT_REPO
    ensures PROPERTY_P2_FLAVOR != PROPERTY_P2_PUBLISH_ARTIFACTS && PROPERTY_P2_FLAVOR != PROPERTY_P2_METADATA_REPO
    ensures PROPERTY_P2_FLAVOR != PROPERTY_P2_ARTIFACT_REPO
    ensures PROPERTY_P2_PUBLISH_ARTIFACTS != PROPERTY_P2_METADATA_REPO
    ensures PROPERTY_P2_PUBLISH_ARTIFACTS != PROPERTY_P2_ARTIFACT_REPO
    ensures PROPERTY_P2_METADATA_REPO != PROPERTY_P2_ARTIFACT_REPO
  {
    assert PROPERTY_P2_METADATA_REPO[3] != PROPERTY_P2_ARTIFACT_REPO[3];
  }

  /** The export settings this operation reads. */
  datatype FeatureExportInfo = FeatureExportInfo(toDirectory: bool, destinationDirectory: string)

  /** A request to create the file `name` in the directory `parent`. */
  datatype FileRequest = FileRequest(parent: string, name: string)

  /** The keys `createAntBuildProperties` puts: none unless the export goes
   *  to a directory; the two repository keys only when the destination
   *  converted to a URL. */
  function P2Keys(toDirectory: bool, converted: bool): (keys: set<string>)
    ensures !toDirectory ==> keys == {}
    ensures toDirectory ==> {TARGET_P2_METADATA, PROPERTY_P2_FLAVOR, PROPERTY_P2_PUBLISH_ARTIFACTS} <= keys
    ensures PROPERTY_P2_METADATA_REPO in keys <==> toDirectory && converted
    ensures PROPERTY_P2_ARTIFACT_REPO in keys <==> toDirectory && converted
    ensures |keys| <= 5
  {
    if !toDirectory then {}
    else if !converted then {TARGET_P2_METADATA, PROPERTY_P2_FLAVOR, PROPERTY_P2_PUBLISH_ARTIFACTS}
    else {TARGET_P2_METADATA, PROPERTY_P2_FLAVOR, PROPERTY_P2_PUBLISH_ARTIFACTS,
          PROPERTY_P2_METADATA_REPO, PROPERTY_P2_ARTIFACT_REPO}
  }

  /** The map after the three flag puts. */
  lemma FlagsPut(base: map<string, string>, props: map<string, string>)
    requires props == base[TARGET_P2_METADATA := TRUE][PROPERTY_P2_FLAVOR := P2_FLAVOR_DEFAULT]
                          [PROPERTY_P2_PUBLISH_ARTIFACTS := FALSE]
    ensures props.Keys == base.Keys + P2Keys(true, false)
    ensures forall k :: k in base && k !in P2Keys(true, false) ==> props[k] == base[k]
  {
  }

  /** The map after the three flag puts and the two repository puts. */
  lemma RepositoriesPut(base: map<string, string>, props: map<string, string>, url: string)
    requires props == base[TARGET_P2_METADATA := TRUE][PROPERTY_P2_FLAVOR := P2_FLAVOR_DEFAULT]
                          [PROPERTY_P2_PUBLISH_ARTIFACTS := FALSE]
                          [PROPERTY_P2_METADATA_REPO := url][PROPERTY_P2_ARTIFACT_REPO := url]
    ensures props.Keys == base.Keys + P2Keys(true, true)
    ensures forall k :: k in base && k !in P2Keys(true, true) ==> props[k] == base[k]
  {
  }

  class SiteBuildOperation {
    const info: FeatureExportInfo
    /** The directory the feature build scripts live in. */
    const featureLocation: string
    /** The post-processing files requested so far, in order. */
    var postProcessingFiles: seq<FileRequest>

    constructor (info: FeatureExportInfo, featureLocation: string)
      ensures this.info == info && this.featureLocation == featureLocation
      ensures postProcessingFiles == []
    {
      this.info := info;
      this.featureLocation := featureLocation;
      postProcessingFiles := [];
    }

    /** Requests the feature hook file, then the plug-in hook file, both
     *  in the feature location. */
    method CreatePostProcessingFiles()
      modifies this`postProcessingFiles
      ensures postProcessingFiles == old(postProcessingFiles) +
        [FileRequest(featureLocation, FEATURE_POST_PROCESSING), FileRequest(featureLocation, PLUGIN_POST_PROCESSING)]
    {
      postProcessingFiles := postProcessingFiles + [FileRequest(featureLocation, FEATURE_POST_PROCESSING)];
      postProcessingFiles := postProcessingFiles + [FileRequest(featureLocation, PLUGIN_POST_PROCESSING)];
    }

    /**
     * The Ant build properties for one platform: `base` is the map the
     * feature export builds for that platform, and `toUrl` converts a
     * directory path to a file URL (`None` when the conversion raises
     * MalformedURLException). `logged` says that a conversion failure was
     * sent to the log instead of being raised.
     */
    method CreateAntBuildProperties(base: map<string, string>, toUrl: string -> Option<string>)
      returns (props: map<string, string>, logged: bool)
      ensures !info.toDirectory ==> props == base && !logged
      ensures props.Keys == base.Keys + P2Keys(info.toDirectory, toUrl(info.destinationDirectory).Some?)
      ensures forall k :: k in base && k !in P2Keys(info.toDirectory, toUrl(info.destinationDirectory).Some?) ==>
                props[k] == base[k]
      ensures info.toDirectory ==>
                && props[TARGET_P2_METADATA] == TRUE
                && props[PROPERTY_P2_FLAVOR] == P2_FLAVOR_DEFAULT
                && props[PROPERTY_P2_PUBLISH_ARTIFACTS] == FALSE
      ensures info.toDirectory && toUrl(info.destinationDirectory).Some? ==>
                && props[PROPERTY_P2_METADATA_REPO] == toUrl(info.destinationDirectory).value
                && props[PROPERTY_P2_ARTIFACT_REPO] == toUrl(info.destinationDirectory).value
      ensures logged <==> info.toDirectory && toUrl(info.destinationDirectory).None?
    {
      P2KeysDistinct();
      props := base;
      logged := false;
      if info.toDirectory {
        props := props[TARGET_P2_METADATA := TRUE];
        props := props[PROPERTY_P2_FLAVOR := P2_FLAVOR_DEFAULT];
        props := props[PROPERTY_P2_PUBLISH_ARTIFACTS := FALSE];
        FlagsPut(base, props);
        var metadataUrl := toUrl(info.destinationDirectory);
        if metadataUrl.Some? {
          props := props[PROPERTY_P2_METADATA_REPO := metadataUrl.value];
          var artifactUrl := toUrl(info.destinationDirectory);
          if artifactUrl.Some? {
            props := props[PROPERTY_P2_ARTIFACT_REPO := artifactUrl.value];
            RepositoriesPut(base, props, artifactUrl.value);
          } else {
            // Never taken: `toUrl` is a function, so the second conversion
            // of the same path gives the same result as the first.
            logged := true;
          }
        } else {
          logged := true;
        }
      }
    }
  }
}
