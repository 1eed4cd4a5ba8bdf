/**
 * The media-source resolver's decision (`Track.toMediaSource`, `Track.java`
 * lines 137-204) as a pure selection: which data path a track is read through,
 * whether that path goes through the playback's caching wrapper, and which
 * source kind is layered over it. The ExoPlayer objects are replaced by
 * descriptors that record those choices.
 */
module MediaSources {
  import opened Options
  import opened Bundles
  import opened Uris
  import opened TrackTypes

  /**
   * Platform facts the resolver consults but this model does not compute:
   * `Utils.getRawResourceId`, `Utils.getUri`, `Utils.isLocal`, whether opening
   * a raw resource succeeds, and the version part of `Util.getUserAgent`.
   */
  datatype Context = Context(
    rawResourceId: map<string, Value> -> int,
    bundleUri: map<string, Value> -> Uri,
    isLocal: Uri -> bool,
    rawResourceOpens: Uri -> bool,
    userAgentSuffix: string)

  /** HTTP request headers: header name to its string value (null for a non-string). */
  type Headers = map<string, Option<string>>

  /** `DefaultHttpDataSource.DEFAULT_CONNECT_TIMEOUT_MILLIS`. */
  const DefaultConnectTimeoutMs: int := 8000
  /** `DefaultHttpDataSource.DEFAULT_READ_TIMEOUT_MILLIS`. */
  const DefaultReadTimeoutMs: int := 8000

  /** The application name handed to `Util.getUserAgent`. */
  const AppName: string := "react-native-track-player"

  /** How a track's bytes are fetched. */
  datatype DataFactory =
    | RawResource(resource: Uri)
    | LocalFiles
    | Http(userAgent: string, connectTimeoutMs: int, readTimeoutMs: int,
           allowCrossProtocolRedirects: bool, requestProperties: Option<Headers>)
    | Cached(upstream: DataFactory, ignoreCacheOnError: bool)

  /** The streaming adapter built over the data path. */
  datatype SourceKind = DashSource | HlsSource | SmoothStreamingSource | Progressive(constantBitrateSeeking: bool)

  datatype MediaSource = MediaSource(kind: SourceKind, factory: DataFactory, uri: Uri)

  /** The outcome of resolving a track: a source, or the runtime exception thrown at line 152. */
  datatype Resolved = Built(source: MediaSource) | ResourceUnreadable

  /** `Util.getUserAgent(ctx, "react-native-track-player")`. */
  function DefaultUserAgent(ctx: Context): (r: string)
    ensures |r| > |AppName| && r[..|AppName|] == AppName
  {
    AppName + "/" + ctx.userAgentSuffix
  }

  /** The user agent after `toMediaSource` has filled in a missing or empty one. */
  function EffectiveUserAgent(userAgent: Option<string>, ctx: Context): (r: string)
    ensures |r| > 0
    ensures userAgent.Some? && userAgent.value != "" ==> r == userAgent.value
    ensures userAgent.None? || userAgent.value == "" ==> r == DefaultUserAgent(ctx)
  {
    if userAgent.None? || userAgent.value == "" then DefaultUserAgent(ctx) else userAgent.value
  }

  /** Filling in the user agent a second time changes nothing. */
  lemma EffectiveUserAgentIdempotent(userAgent: Option<string>, ctx: Context)
    ensures EffectiveUserAgent(Some(EffectiveUserAgent(userAgent, ctx)), ctx) == EffectiveUserAgent(userAgent, ctx)
  {
  }

  /** The network factory of lines 163-171. */
  function HttpFactory(userAgent: string, headers: Option<Headers>): DataFactory
  {
    Http(userAgent, DefaultConnectTimeoutMs, DefaultReadTimeoutMs, true, headers)
  }

  /**
   * Lines 144-175: an embedded resource is read as that raw resource, a local
   * URI through the local-file factory, and anything else over the network,
   * handed to the caching wrapper.
   */
  function DataPath(ctx: Context, resourceId: int, uri: Uri, userAgent: string, headers: Option<Headers>,
                    enableCaching: DataFactory -> DataFactory): (r: DataFactory)
    ensures resourceId != 0 ==> r == RawResource(uri)
    ensures resourceId == 0 && ctx.isLocal(uri) ==> r == LocalFiles
    ensures resourceId == 0 && !ctx.isLocal(uri) ==>
      r == enableCaching(Http(userAgent, DefaultConnectTimeoutMs, DefaultReadTimeoutMs, true, headers))
  {
    if resourceId != 0 then RawResource(uri)
    else if ctx.isLocal(uri) then LocalFiles
    else enableCaching(HttpFactory(userAgent, headers))
  }

  /** The type a source kind was built for: the inverse of the dispatch. */
  function TypeOfKind(kind: SourceKind): TrackType
  {
    match kind
    case DashSource => Dash
    case HlsSource => Hls
    case SmoothStreamingSource => SmoothStreaming
    case Progressive(_) => Default
  }

  /**
   * Lines 177-188: the adapter chosen by the track's type, over the given data
   * path and for the given URI; a progressive source seeks at constant bitrate.
   */
  function SourceFor(t: TrackType, ds: DataFactory, uri: Uri): (r: MediaSource)
    ensures TypeOfKind(r.kind) == t
    ensures r.factory == ds && r.uri == uri
    ensures r.kind.Progressive? ==> r.kind.constantBitrateSeeking
  {
    match t
    case Dash => MediaSource(DashSource, ds, uri)
    case Hls => MediaSource(HlsSource, ds, uri)
    case SmoothStreaming => MediaSource(SmoothStreamingSource, ds, uri)
    case Default => MediaSource(Progressive(true), ds, uri)
  }

  /**
   * The whole of `toMediaSource` once the user agent is settled. It fails
   * only for an embedded resource that cannot be opened; otherwise the source
   * is for the track's own URI, read through the track's data path, and its
   * kind names the track's type.
   */
  function Resolve(ctx: Context, resourceId: int, uri: Uri, t: TrackType, userAgent: string,
                   headers: Option<Headers>, enableCaching: DataFactory -> DataFactory): (r: Resolved)
    ensures r.ResourceUnreadable? <==> resourceId != 0 && !ctx.rawResourceOpens(uri)
    ensures r.Built? ==>
      && r.source.uri == uri
      && TypeOfKind(r.source.kind) == t
      && r.source.factory == DataPath(ctx, resourceId, uri, userAgent, headers, enableCaching)
    ensures r.Built? && r.source.kind.Progressive? ==> r.source.kind.constantBitrateSeeking
  {
    if resourceId != 0 && !ctx.rawResourceOpens(uri) then ResourceUnreadable
    else Built(SourceFor(t, DataPath(ctx, resourceId, uri, userAgent, headers, enableCaching), uri))
  }

  /**
   * Only the network path is handed to the caching wrapper: for a raw resource
   * or a local file the wrapper makes no difference, and on the network path
   * the data factory is the wrapper applied to the HTTP factory, which carries
   * the user agent, the default timeouts, cross-protocol redirects, and the
   * headers exactly when there are any.
   */
  lemma CachingOnlyOnNetworkPath(ctx: Context, resourceId: int, uri: Uri, t: TrackType, userAgent: string,
                                 headers: Option<Headers>, f: DataFactory -> DataFactory, g: DataFactory -> DataFactory)
    ensures resourceId != 0 || ctx.isLocal(uri) ==>
      Resolve(ctx, resourceId, uri, t, userAgent, headers, f) == Resolve(ctx, resourceId, uri, t, userAgent, headers, g)
    ensures resourceId == 0 && !ctx.isLocal(uri) ==>
      && Resolve(ctx, resourceId, uri, t, userAgent, headers, f).Built?
      && Resolve(ctx, resourceId, uri, t, userAgent, headers, f).source.factory
         == f(Http(userAgent, DefaultConnectTimeoutMs, DefaultReadTimeoutMs, true, headers))
  {
  }
}
