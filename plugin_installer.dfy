/**
 * The record of what installing a plugin registered: the plugin's class, how long loading
 * took, and the features it contributed, in registration order, with the builder that
 * collects them.
 */
module PluginInstaller {
  import opened Errors

  /** The kinds of feature a plugin can contribute. */
  datatype Feature =
    | ACCESS_CONTROL
    | BLOCK_ENCODING
    | CATALOG_STORE
    | CERTIFICATE_AUTHENTICATOR
    | CONNECTOR
    | EVENT_LISTENER
    | EXCHANGE_MANAGER
    | FUNCTION
    | GROUP_PROVIDER
    | HEADER_AUTHENTICATOR
    | LANGUAGE_FUNCTION
    | PARAMETRIC_TYPE
    | PASSWORD_AUTHENTICATOR
    | RESOURCE_GROUP_CONFIGURATION_MANAGER
    | SESSION_PROPERTY_CONFIGURATION_MANAGER
    | SPOOLING_MANAGER
    | TYPE

  /** Every feature kind, in declaration order. */
  const ALL_FEATURES: seq<Feature> :=
    [ACCESS_CONTROL, BLOCK_ENCODING, CATALOG_STORE, CERTIFICATE_AUTHENTICATOR, CONNECTOR, EVENT_LISTENER,
     EXCHANGE_MANAGER, FUNCTION, GROUP_PROVIDER, HEADER_AUTHENTICATOR, LANGUAGE_FUNCTION, PARAMETRIC_TYPE,
     PASSWORD_AUTHENTICATOR, RESOURCE_GROUP_CONFIGURATION_MANAGER, SESSION_PROPERTY_CONFIGURATION_MANAGER,
     SPOOLING_MANAGER, TYPE]

  /** The plural phrase a feature kind is listed under. */
  function Description(feature: Feature): (r: string)
    ensures |r| > 0
  {
    match feature
    case ACCESS_CONTROL => "access controls"
    case BLOCK_ENCODING => "block encodings"
    case CATALOG_STORE => "catalog stores"
    case CERTIFICATE_AUTHENTICATOR => "certificate authenticators"
    case CONNECTOR => "connectors"
    case EVENT_LISTENER => "event listeners"
    case EXCHANGE_MANAGER => "exchange managers"
    case FUNCTION => "functions"
    case GROUP_PROVIDER => "group providers"
    case HEADER_AUTHENTICATOR => "header authenticators"
    case LANGUAGE_FUNCTION => "language functions engines"
    case PARAMETRIC_TYPE => "parametric types"
    case PASSWORD_AUTHENTICATOR => "password authenticators"
    case RESOURCE_GROUP_CONFIGURATION_MANAGER => "resource group managers"
    case SESSION_PROPERTY_CONFIGURATION_MANAGER => "session property managers"
    case SPOOLING_MANAGER => "spooling managers"
    case TYPE => "types"
  }

  /** `ALL_FEATURES` lists every kind once, and no two kinds share a description. */
  lemma FeatureCatalogue(f: Feature, g: Feature)
    ensures f in ALL_FEATURES
    ensures forall i, j :: 0 <= i < j < |ALL_FEATURES| ==> ALL_FEATURES[i] != ALL_FEATURES[j]
    ensures Description(f) == Description(g) ==> f == g
  {
  }

  /** A time span, held in nanoseconds. */
  datatype Duration = Duration(nanos: int)

  /** One registered feature: its kind and its name. */
  datatype InstalledFeature = InstalledFeature(featureType: Feature, name: string)

  /** The record's constructor: a null kind or name is rejected, the kind first. */
  function NewInstalledFeature(featureType: Option<Feature>, name: Option<string>): (r: Result<InstalledFeature>)
    ensures r.Ok? <==> featureType.Some? && name.Some?
    ensures r.Ok? ==> r.value.featureType == featureType.value && r.value.name == name.value
    ensures featureType.None? ==> r == Err(NullPointerException("type is null"))
    ensures featureType.Some? && name.None? ==> r == Err(NullPointerException("name is null"))
  {
    if featureType.None? then Err(NullPointerException("type is null"))
    else if name.None? then Err(NullPointerException("name is null"))
    else Ok(InstalledFeature(featureType.value, name.value))
  }

  /** What installing one plugin registered. */
  datatype InstalledFeatures = InstalledFeatures(pluginClass: string, loadingTime: Duration, features: seq<InstalledFeature>)
  {
    /** Whether nothing was registered: exactly when no kind has a name listed. */
    predicate IsEmpty()
      ensures IsEmpty() <==> forall f :: Names(f) == []
    {
      NoNamesIffEmpty(this);
      |features| == 0
    }

    /**
     * The names registered under `feature`, in registration order: a name is listed exactly
     * when a feature of that kind carries it, and there are no more names than features.
     */
    function Names(feature: Feature): (r: seq<string>)
      ensures forall n :: n in r <==> InstalledFeature(feature, n) in features
      ensures |r| <= |features|
    {
      NamesOfContains(features, feature);
      NamesOf(features, feature)
    }
  }

  /** The record's constructor: each argument is checked for null in order, and the list is copied. */
  function NewInstalledFeatures(pluginClass: Option<string>, loadingTime: Option<Duration>,
                                features: Option<seq<InstalledFeature>>): (r: Result<InstalledFeatures>)
    ensures r.Ok? <==> pluginClass.Some? && loadingTime.Some? && features.Some?
    ensures r.Ok? ==> r.value == InstalledFeatures(pluginClass.value, loadingTime.value, features.value)
    ensures pluginClass.None? ==> r == Err(NullPointerException("pluginClass is null"))
    ensures pluginClass.Some? && loadingTime.None? ==> r == Err(NullPointerException("loadingTime is null"))
    ensures pluginClass.Some? && loadingTime.Some? && features.None? ==> r == Err(NullPointerException("features is null"))
  {
    if pluginClass.None? then Err(NullPointerException("pluginClass is null"))
    else if loadingTime.None? then Err(NullPointerException("loadingTime is null"))
    else if features.None? then Err(NullPointerException("features is null"))
    else Ok(InstalledFeatures(pluginClass.value, loadingTime.value, features.value))
  }

  /** The names of the features of kind `feature`, in order. */
  function NamesOf(features: seq<InstalledFeature>, feature: Feature): (r: seq<string>)
    ensures |r| <= |features|
  {
    if features == [] then []
    else NamesOf(features[..|features| - 1], feature)
         + (if features[|features| - 1].featureType == feature then [features[|features| - 1].name] else [])
  }

  /** `names` distributes over concatenation: the filter keeps the order of the list. */
  lemma {:induction false} NamesOfAppend(a: seq<InstalledFeature>, b: seq<InstalledFeature>, feature: Feature)
    ensures NamesOf(a + b, feature) == NamesOf(a, feature) + NamesOf(b, feature)
  {
    if b == [] {
      assert a + b == a;
    } else {
      assert (a + b)[..|a + b| - 1] == a + b[..|b| - 1];
      NamesOfAppend(a, b[..|b| - 1], feature);
    }
  }

  /** A name is listed under `feature` exactly when some feature of that kind carries it. */
  lemma {:induction false} NamesOfMembership(features: seq<InstalledFeature>, feature: Feature, name: string)
    ensures name in NamesOf(features, feature) <==>
              exists i :: 0 <= i < |features| && features[i] == InstalledFeature(feature, name)
  {
    if features != [] {
      var init := features[..|features| - 1];
      NamesOfMembership(init, feature, name);
      if exists i :: 0 <= i < |init| && init[i] == InstalledFeature(feature, name) {
        var i :| 0 <= i < |init| && init[i] == InstalledFeature(feature, name);
        assert features[i] == init[i];
      }
      if exists i :: 0 <= i < |features| && features[i] == InstalledFeature(feature, name) {
        var i :| 0 <= i < |features| && features[i] == InstalledFeature(feature, name);
        if i < |init| {
          assert init[i] == features[i];
        }
      }
    }
  }

  lemma NamesOfContains(features: seq<InstalledFeature>, feature: Feature)
    ensures forall n :: n in NamesOf(features, feature) <==> InstalledFeature(feature, n) in features
  {
    forall n
      ensures n in NamesOf(features, feature) <==> InstalledFeature(feature, n) in features
    {
      NamesOfMembership(features, feature, n);
    }
  }

  /** The number of names listed under each kind, summed over `kinds`. */
  function NameCount(features: seq<InstalledFeature>, kinds: seq<Feature>): nat
  {
    if kinds == [] then 0 else |NamesOf(features, kinds[0])| + NameCount(features, kinds[1..])
  }

  lemma {:induction false} NameCountStep(features: seq<InstalledFeature>, x: InstalledFeature, kinds: seq<Feature>)
    ensures NameCount(features + [x], kinds) == NameCount(features, kinds) + CountOf(kinds, x.featureType)
  {
    if kinds != [] {
      assert (features + [x])[..|features + [x]| - 1] == features;
      assert (features + [x])[|features + [x]| - 1] == x;
      NameCountStep(features, x, kinds[1..]);
    }
  }

  /** How many times `f` occurs in `kinds`. */
  function CountOf(kinds: seq<Feature>, f: Feature): nat
  {
    if kinds == [] then 0 else (if kinds[0] == f then 1 else 0) + CountOf(kinds[1..], f)
  }

  lemma {:induction false} CountOfDistinct(kinds: seq<Feature>, f: Feature)
    requires forall i, j :: 0 <= i < j < |kinds| ==> kinds[i] != kinds[j]
    ensures CountOf(kinds, f) == if f in kinds then 1 else 0
  {
    if kinds != [] {
      CountOfDistinct(kinds[1..], f);
    }
  }

  /** Every registered feature is listed under exactly one kind: the lists of all kinds hold as many names as there are features. */
  lemma {:induction false} NamesPartition(features: seq<InstalledFeature>)
    ensures NameCount(features, ALL_FEATURES) == |features|
  {
    if features == [] {
      NameCountEmpty(ALL_FEATURES);
    } else {
      var init, x := features[..|features| - 1], features[|features| - 1];
      assert init + [x] == features;
      NamesPartition(init);
      NameCountStep(init, x, ALL_FEATURES);
      FeatureCatalogue(x.featureType, x.featureType);
      CountOfDistinct(ALL_FEATURES, x.featureType);
    }
  }

  lemma {:induction false} NameCountEmpty(kinds: seq<Feature>)
    ensures NameCount([], kinds) == 0
  {
    if kinds != [] {
      NameCountEmpty(kinds[1..]);
    }
  }

  /** A record registered nothing exactly when no kind has a name listed. */
  lemma NoNamesIffEmpty(installed: InstalledFeatures)
    ensures |installed.features| == 0 <==> forall f :: installed.Names(f) == []
  {
    if |installed.features| != 0 {
      var x := installed.features[0];
      assert x.name in installed.Names(x.featureType);
    }
  }

  /** Collects the features of one plugin as it is installed. */
  class Builder {
    const pluginClass: string
    var loadingTime: Option<Duration>
    var features: seq<InstalledFeature>

    constructor (pluginClass: string)
      ensures this.pluginClass == pluginClass && loadingTime == Some(Duration(0)) && features == []
    {
      this.pluginClass := pluginClass;
      loadingTime := Some(Duration(0));
      features := [];
    }

    /** Appends one feature at the end; a null kind or name is rejected and nothing changes. */
    method WithFeature(feature: Option<Feature>, name: Option<string>) returns (r: Outcome)
      modifies this`features
      ensures r.Pass? <==> feature.Some? && name.Some?
      ensures r.Pass? ==> features == old(features) + [InstalledFeature(feature.value, name.value)]
      ensures r.Fail? ==> features == old(features) && r.error == NewInstalledFeature(feature, name).error
    {
      var installed := NewInstalledFeature(feature, name);
      if installed.Err? {
        return Fail(installed.error);
      }
      features := features + [installed.value];
      return Pass;
    }

    /** Overwrites the loading time; a null is accepted here and rejected by `Build`. */
    method WithLoadingTime(duration: Option<Duration>)
      modifies this`loadingTime
      ensures loadingTime == duration
    {
      loadingTime := duration;
    }

    /** The record of the features appended so far, in append order. */
    function Build(): (r: Result<InstalledFeatures>)
      reads this
      ensures r.Ok? <==> loadingTime.Some?
      ensures r.Ok? ==> r.value == InstalledFeatures(pluginClass, loadingTime.value, features)
      ensures r.Err? ==> r.error == NullPointerException("loadingTime is null")
    {
      NewInstalledFeatures(Some(pluginClass), loadingTime, Some(features))
    }
  }

  /** `InstalledFeatures.builder`: a null plugin class is rejected. */
  method NewBuilder(pluginClass: Option<string>) returns (r: Result<Builder>)
    ensures r.Err? <==> pluginClass.None?
    ensures r.Err? ==> r.error == NullPointerException("pluginClass is null")
    ensures r.Ok? ==>
              fresh(r.value) && r.value.pluginClass == pluginClass.value
              && r.value.loadingTime == Some(Duration(0)) && r.value.features == []
  {
    if pluginClass.None? {
      return Err(NullPointerException("pluginClass is null"));
    }
    var builder := new Builder(pluginClass.value);
    return Ok(builder);
  }
}
