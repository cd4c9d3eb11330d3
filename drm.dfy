/** DefaultDrmSessionManagerProvider: hands out the DrmSessionManager for a
    media item's DRM configuration, keeping a single cache entry, the
    manager built for the most recent configuration. */
module Drm {
  import opened Common

  /** MediaItem.DrmConfiguration; configurations are compared field by
      field, as its `equals` does. */
  datatype DrmConfiguration = DrmConfiguration(
    scheme: string,
    licenseUri: Option<string>,
    licenseRequestHeaders: map<string, string>,
    multiSession: bool,
    playClearContentWithoutKey: bool,
    forceDefaultLicenseUri: bool,
    forcedSessionTrackTypes: seq<int>,
    keySetId: Option<seq<bv8>>)

  /** MediaItem.LocalConfiguration, as far as DRM goes. */
  datatype LocalConfiguration = LocalConfiguration(drmConfiguration: Option<DrmConfiguration>)

  /** A MediaItem, as far as DRM goes. */
  datatype MediaItem = MediaItem(localConfiguration: Option<LocalConfiguration>)

  /** The HTTP data source factory a new manager's license callback uses:
      the one set on the provider, or a default one with the provider's
      user agent. */
  datatype HttpSource = GivenFactory(factoryId: nat) | DefaultHttpFactory(userAgent: Option<string>)

  /** A DrmSessionManager built by `createManager`: which configuration and
      settings it was built from. */
  class DrmSessionManager {
    const configuration: DrmConfiguration
    const httpSource: HttpSource
    const loadErrorHandlingPolicy: Option<nat>

    constructor (configuration: DrmConfiguration, httpSource: HttpSource, loadErrorHandlingPolicy: Option<nat>)
      ensures this.configuration == configuration && this.httpSource == httpSource
      ensures this.loadErrorHandlingPolicy == loadErrorHandlingPolicy
    {
      this.configuration := configuration;
      this.httpSource := httpSource;
      this.loadErrorHandlingPolicy := loadErrorHandlingPolicy;
    }
  }

  /** What `get` returns: the DRM_UNSUPPORTED sentinel or a built manager. */
  datatype ManagerRef = DrmUnsupported | Instance(manager: DrmSessionManager)

  /** How one `get` uses the cache. */
  datatype GetOutcome = NoLocalConfiguration | Unsupported | Reused | Created

  /** The DRM configuration a media item asks for, if it has one. */
  function DrmOf(item: MediaItem): Option<DrmConfiguration> {
    if item.localConfiguration.Some? then item.localConfiguration.value.drmConfiguration else None
  }

  /** What `get(item)` does with cached configuration `cached`. */
  function Classify(cached: Option<DrmConfiguration>, item: MediaItem): GetOutcome {
    if item.localConfiguration.None? then NoLocalConfiguration
    else if DrmOf(item).None? then Unsupported
    else if DrmOf(item) == cached then Reused
    else Created
  }

  /** The cached configuration after `get(item)`. */
  function CachedAfter(cached: Option<DrmConfiguration>, item: MediaItem): (r: Option<DrmConfiguration>)
    ensures Classify(cached, item) == Created ==> r == DrmOf(item) && r != cached
    ensures Classify(cached, item) != Created ==> r == cached
  {
    if DrmOf(item).Some? then DrmOf(item) else cached
  }

  /** The cached configuration after a run of `get` calls. */
  function CachedAfterAll(cached: Option<DrmConfiguration>, items: seq<MediaItem>): Option<DrmConfiguration>
    decreases |items|
  {
    if |items| == 0 then cached else CachedAfterAll(CachedAfter(cached, items[0]), items[1..])
  }

  /** How many managers a run of `get` calls builds. */
  function CreatedCount(cached: Option<DrmConfiguration>, items: seq<MediaItem>): nat
    decreases |items|
  {
    if |items| == 0 then 0
    else (if Classify(cached, items[0]) == Created then 1 else 0) +
         CreatedCount(CachedAfter(cached, items[0]), items[1..])
  }

  /** The DRM configuration of the last item in `items` that has one, or
      `cached` when none does: what the cache holds, read from the end. */
  function LastConfiguration(cached: Option<DrmConfiguration>, items: seq<MediaItem>): Option<DrmConfiguration>
    decreases |items|
  {
    if |items| == 0 then cached
    else if DrmOf(items[|items| - 1]).Some? then DrmOf(items[|items| - 1])
    else LastConfiguration(cached, items[..|items| - 1])
  }

  /** The number of items, counted from the end, that ask for a DRM
      configuration other than the last one asked for before them. */
  function Changes(cached: Option<DrmConfiguration>, items: seq<MediaItem>): nat
    decreases |items|
  {
    if |items| == 0 then 0
    else
      var init := items[..|items| - 1];
      var d := DrmOf(items[|items| - 1]);
      Changes(cached, init) + (if d.Some? && d != LastConfiguration(cached, init) then 1 else 0)
  }

  lemma {:induction false} CachedAfterAllAppend(cached: Option<DrmConfiguration>, items: seq<MediaItem>, x: MediaItem)
    ensures CachedAfterAll(cached, items + [x]) == CachedAfter(CachedAfterAll(cached, items), x)
    ensures CreatedCount(cached, items + [x]) ==
            CreatedCount(cached, items) + (if Classify(CachedAfterAll(cached, items), x) == Created then 1 else 0)
    decreases |items|
  {
    if |items| == 0 {
      assert items + [x] == [x];
      assert [x][1..] == [];
    } else {
      assert (items + [x])[0] == items[0];
      assert (items + [x])[1..] == items[1..] + [x];
      CachedAfterAllAppend(CachedAfter(cached, items[0]), items[1..], x);
    }
  }

  /** The cache holds only the most recent configuration: after any run of
      `get` calls it is the last one asked for. */
  lemma {:induction false} CacheHoldsLastConfiguration(cached: Option<DrmConfiguration>, items: seq<MediaItem>)
    ensures CachedAfterAll(cached, items) == LastConfiguration(cached, items)
    decreases |items|
  {
    if |items| > 0 {
      var init := items[..|items| - 1];
      var x := items[|items| - 1];
      assert items == init + [x];
      CachedAfterAllAppend(cached, init, x);
      CacheHoldsLastConfiguration(cached, init);
    }
  }

  /** A run of `get` calls builds exactly one manager per change of the
      configuration asked for; items without a configuration change
      nothing. */
  lemma {:induction false} CreatedCountIsChanges(cached: Option<DrmConfiguration>, items: seq<MediaItem>)
    ensures CreatedCount(cached, items) == Changes(cached, items)
    decreases |items|
  {
    if |items| > 0 {
      var init := items[..|items| - 1];
      var x := items[|items| - 1];
      assert items == init + [x];
      CachedAfterAllAppend(cached, init, x);
      CacheHoldsLastConfiguration(cached, init);
      CreatedCountIsChanges(cached, init);
    }
  }

  /** Asking twice for the same item builds at most one manager: the
      second `get` never builds. */
  lemma GetTwiceBuildsOnce(cached: Option<DrmConfiguration>, item: MediaItem)
    ensures Classify(CachedAfter(cached, item), item) != Created
    ensures CreatedCount(cached, [item, item]) <= 1
  {
    var after := CachedAfter(cached, item);
    assert [item, item][1..] == [item];
    assert [item][1..] == [];
    assert CreatedCount(after, [item]) == 0;
  }

  /** A single cache entry: A, B, A builds three managers. */
  lemma AlternatingConfigurationsRebuild(a: DrmConfiguration, b: DrmConfiguration)
    requires a != b
    ensures var itemA := MediaItem(Some(LocalConfiguration(Some(a))));
            var itemB := MediaItem(Some(LocalConfiguration(Some(b))));
            CreatedCount(None, [itemA, itemB, itemA]) == 3
  {
    var itemA := MediaItem(Some(LocalConfiguration(Some(a))));
    var itemB := MediaItem(Some(LocalConfiguration(Some(b))));
    assert [itemA, itemB, itemA][1..] == [itemB, itemA];
    assert [itemB, itemA][1..] == [itemA];
    assert [itemA][1..] == [];
    assert CreatedCount(Some(b), [itemA]) == 1;
    assert CreatedCount(Some(a), [itemB, itemA]) == 2;
  }

  class DefaultDrmSessionManagerProvider {
    /** The cache: the last configuration and the manager built for it
        (both null until the first build). */
    var drmConfiguration: Option<DrmConfiguration>
    var manager: Option<DrmSessionManager>
    var drmHttpDataSourceFactory: Option<nat>
    var userAgent: Option<string>
    var drmLoadErrorHandlingPolicy: Option<nat>
    /** How many managers `get` has built. */
    ghost var managersCreated: nat

    /** The cache fields are set together, and the manager is the one built
        for the cached configuration. */
    ghost predicate Valid()
      reads this
    {
      (drmConfiguration.Some? <==> manager.Some?) &&
      (manager.Some? ==> manager.value.configuration == drmConfiguration.value)
    }

    constructor ()
      ensures Valid()
      ensures drmConfiguration == None && manager == None && managersCreated == 0
      ensures drmHttpDataSourceFactory == None && userAgent == None && drmLoadErrorHandlingPolicy == None
    {
      drmConfiguration := None;
      manager := None;
      drmHttpDataSourceFactory := None;
      userAgent := None;
      drmLoadErrorHandlingPolicy := None;
      managersCreated := 0;
    }

    /** `setDrmHttpDataSourceFactory(factory)`. */
    method SetDrmHttpDataSourceFactory(factory: Option<nat>)
      modifies this
      ensures drmHttpDataSourceFactory == factory
      ensures drmConfiguration == old(drmConfiguration) && manager == old(manager)
      ensures userAgent == old(userAgent) && drmLoadErrorHandlingPolicy == old(drmLoadErrorHandlingPolicy)
      ensures managersCreated == old(managersCreated)
    {
      drmHttpDataSourceFactory := factory;
    }

    /** `setDrmUserAgent(userAgent)`. */
    method SetDrmUserAgent(userAgent: Option<string>)
      modifies this
      ensures this.userAgent == userAgent
      ensures drmConfiguration == old(drmConfiguration) && manager == old(manager)
      ensures drmHttpDataSourceFactory == old(drmHttpDataSourceFactory)
      ensures drmLoadErrorHandlingPolicy == old(drmLoadErrorHandlingPolicy)
      ensures managersCreated == old(managersCreated)
    {
      this.userAgent := userAgent;
    }

    /** `setDrmLoadErrorHandlingPolicy(policy)`. */
    method SetDrmLoadErrorHandlingPolicy(policy: Option<nat>)
      modifies this
      ensures drmLoadErrorHandlingPolicy == policy
      ensures drmConfiguration == old(drmConfiguration) && manager == old(manager)
      ensures drmHttpDataSourceFactory == old(drmHttpDataSourceFactory) && userAgent == old(userAgent)
      ensures managersCreated == old(managersCreated)
    {
      drmLoadErrorHandlingPolicy := policy;
    }

    /** `createManager(configuration)`: a new manager built from the
        configuration and the provider's current settings. */
    method CreateManager(configuration: DrmConfiguration) returns (m: DrmSessionManager)
      ensures fresh(m)
      ensures m.configuration == configuration
      ensures m.httpSource == (if drmHttpDataSourceFactory.Some? then GivenFactory(drmHttpDataSourceFactory.value)
                               else DefaultHttpFactory(userAgent))
      ensures m.loadErrorHandlingPolicy == drmLoadErrorHandlingPolicy
    {
      var httpSource := if drmHttpDataSourceFactory.Some? then GivenFactory(drmHttpDataSourceFactory.value)
                        else DefaultHttpFactory(userAgent);
      m := new DrmSessionManager(configuration, httpSource, drmLoadErrorHandlingPolicy);
    }

    /** `get(mediaItem)`. */
    method Get(mediaItem: MediaItem) returns (r: Result<ManagerRef>)
      requires Valid()
      modifies this
      ensures Valid()
      ensures drmConfiguration == CachedAfter(old(drmConfiguration), mediaItem)
      ensures managersCreated == old(managersCreated) + (if Classify(old(drmConfiguration), mediaItem) == Created then 1 else 0)
      ensures drmHttpDataSourceFactory == old(drmHttpDataSourceFactory) && userAgent == old(userAgent)
      ensures drmLoadErrorHandlingPolicy == old(drmLoadErrorHandlingPolicy)
      ensures match Classify(old(drmConfiguration), mediaItem)
        case NoLocalConfiguration => r == Fail(NullArgument) && manager == old(manager)
        case Unsupported => r == Ok(DrmUnsupported) && manager == old(manager)
        case Reused => manager == old(manager) && r == Ok(Instance(manager.value))
        case Created =>
          manager.Some? && fresh(manager.value) && r == Ok(Instance(manager.value)) &&
          manager.value.httpSource == (if drmHttpDataSourceFactory.Some? then GivenFactory(drmHttpDataSourceFactory.value)
                                       else DefaultHttpFactory(userAgent)) &&
          manager.value.loadErrorHandlingPolicy == drmLoadErrorHandlingPolicy
    {
      if mediaItem.localConfiguration.None? {
        return Fail(NullArgument);
      }
      var configuration := mediaItem.localConfiguration.value.drmConfiguration;
      if configuration.None? {
        return Ok(DrmUnsupported);
      }
      if configuration != drmConfiguration {
        drmConfiguration := configuration;
        var m := CreateManager(configuration.value);
        manager := Some(m);
        managersCreated := managersCreated + 1;
      }
      r := Ok(Instance(manager.value));
    }
  }
}
