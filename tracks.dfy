/**
 * The track descriptor (`Track.java`): what the constructor derives from the
 * host's bundle, the metadata merge into the original bundle, the user-agent
 * fill-in of `toMediaSource`, and `createTracks`.
 */
module Tracks {
  import opened Options
  import opened Bundles
  import opened Uris
  import opened TrackTypes
  import opened MediaSources

  /** `httpHeaders.keySet()` copied into a new map, each value read with `getString`. */
  method CopyHeaders(httpHeaders: Bundle) returns (headers: Headers)
    ensures headers.Keys == httpHeaders.entries.Keys
    ensures forall k :: k in headers ==> headers[k] == httpHeaders.GetString(k)
  {
    headers := map[];
    var keys := httpHeaders.entries.Keys;
    while keys != {}
      invariant keys <= httpHeaders.entries.Keys
      invariant headers.Keys == httpHeaders.entries.Keys - keys
      invariant forall k :: k in headers ==> headers[k] == httpHeaders.GetString(k)
      decreases keys
    {
      var header :| header in keys;
      headers := headers[header := httpHeaders.GetString(header)];
      keys := keys - {header};
    }
  }

  /** The headers a bundle declares: none without a nested `"headers"` bundle. */
  ghost predicate HeadersOf(bundle: Bundle, headers: Option<Headers>)
    reads bundle, if bundle.GetBundle("headers").Some? then {bundle.GetBundle("headers").value} else {}
  {
    match bundle.GetBundle("headers")
    case None => headers.None?
    case Some(h) =>
      && headers.Some?
      && headers.value.Keys == h.entries.Keys
      && forall k :: k in headers.value ==> headers.value[k] == h.GetString(k)
  }

  class Track {
    const resourceId: int
    const uri: Uri
    const trackType: TrackType
    const contentType: Option<string>
    const headers: Option<Headers>
    var userAgent: Option<string>
    var originalItem: Bundle?

    /**
     * What lines 74-107 derive from `bundle`: the resource id; the resource
     * URI for an embedded resource and the bundle's URI otherwise; the type
     * whose name matches `"type"` ignoring case, or `Default`; the content
     * type and user agent as read; the headers as copied; and the bundle
     * itself as the original item.
     */
    ghost predicate BuiltFrom(ctx: Context, bundle: Bundle)
      reads this, bundle, if bundle.GetBundle("headers").Some? then {bundle.GetBundle("headers").value} else {}
    {
      && resourceId == ctx.rawResourceId(bundle.entries)
      && (resourceId == 0 ==> uri == ctx.bundleUri(bundle.entries))
      && (resourceId != 0 ==> uri == ResourceUri(resourceId))
      && (var typeName := bundle.GetStringOr("type", "default");
          Matches(trackType, typeName) || (trackType == Default && forall u :: !Matches(u, typeName)))
      && contentType == bundle.GetString("contentType")
      && userAgent == bundle.GetString("userAgent")
      && HeadersOf(bundle, headers)
      && originalItem == bundle
    }

    /** `new Track(context, bundle, ratingType)`, lines 74-107. */
    constructor (ctx: Context, bundle: Bundle)
      ensures BuiltFrom(ctx, bundle)
    {
      var id := ctx.rawResourceId(bundle.entries);
      resourceId := id;
      if id == 0 {
        uri := ctx.bundleUri(bundle.entries);
      } else {
        uri := ResourceUri(id);
      }
      var typeName := bundle.GetStringOr("type", "default");
      var parsed := ParseType(typeName);
      trackType := parsed;
      contentType := bundle.GetString("contentType");
      userAgent := bundle.GetString("userAgent");
      var httpHeaders := bundle.GetBundle("headers");
      if httpHeaders.Some? {
        var copied := CopyHeaders(httpHeaders.value);
        headers := Some(copied);
      } else {
        headers := None;
      }
      originalItem := null;
      new;
      SetMetadata(bundle);
      originalItem := bundle;
    }

    /**
     * Lines 110-115: the new bundle is merged into the original one when there
     * is an original bundle and it is a different object.
     */
    method SetMetadata(bundle: Bundle)
      modifies originalItem
      ensures originalItem == old(originalItem)
      ensures old(originalItem) != null && old(originalItem) != bundle ==>
        originalItem.entries == old(originalItem.entries) + old(bundle.entries)
      ensures old(originalItem) == null || old(originalItem) == bundle ==>
        originalItem == null || originalItem.entries == old(originalItem.entries)
    {
      if originalItem != null && originalItem != bundle {
        originalItem.PutAll(bundle);
      }
    }

    /** Line 152 is not reached: the track is not an embedded resource, or the resource opens. */
    predicate Readable(ctx: Context)
    {
      resourceId == 0 || ctx.rawResourceOpens(uri)
    }

    /** The resolution of this track with its user agent filled in. */
    function MediaSourceFor(ctx: Context, enableCaching: DataFactory -> DataFactory): (r: Resolved)
      reads this
      ensures r.ResourceUnreadable? <==> !Readable(ctx)
      ensures r.Built? ==> r.source.uri == uri && TypeOfKind(r.source.kind) == trackType
    {
      Resolve(ctx, resourceId, uri, trackType, EffectiveUserAgent(userAgent, ctx), headers, enableCaching)
    }

    /**
     * Lines 137-189: fills in the user agent (kept from then on), then
     * resolves the track through `enableCaching` for the network path.
     */
    method ToMediaSource(ctx: Context, enableCaching: DataFactory -> DataFactory) returns (r: Resolved)
      modifies this`userAgent
      ensures userAgent == Some(EffectiveUserAgent(old(userAgent), ctx))
      ensures r == old(MediaSourceFor(ctx, enableCaching)) == MediaSourceFor(ctx, enableCaching)
      ensures r.ResourceUnreadable? <==> !Readable(ctx)
    {
      if userAgent.None? || userAgent.value == "" {
        userAgent := Some(DefaultUserAgent(ctx));
      }
      EffectiveUserAgentIdempotent(old(userAgent), ctx);
      r := Resolve(ctx, resourceId, uri, trackType, userAgent.value, headers, enableCaching);
    }
  }

  /** The sources of `tracks` in order, or none when one of them cannot be read. */
  function ResolveAll(ctx: Context, tracks: seq<Track>, enableCaching: DataFactory -> DataFactory): (r: Option<seq<MediaSource>>)
    reads set t | t in tracks
    ensures r.None? <==> exists i :: 0 <= i < |tracks| && !tracks[i].Readable(ctx)
    ensures r.Some? ==> |r.value| == |tracks|
    ensures r.Some? ==> forall i :: 0 <= i < |tracks| ==> tracks[i].MediaSourceFor(ctx, enableCaching) == Built(r.value[i])
    decreases |tracks|
  {
    if tracks == [] then Some([])
    else
      var rest := ResolveAll(ctx, tracks[1..], enableCaching);
      match tracks[0].MediaSourceFor(ctx, enableCaching)
      case ResourceUnreadable => None
      case Built(source) => if rest.None? then None else Some([source] + rest.value)
  }

  /** An element of the host's list: a bundle, or anything else. */
  datatype Item = BundleItem(bundle: Bundle) | OtherItem

  /**
   * Lines 46-58: one track per element, in order, when every element is a
   * bundle; null as soon as one is not.
   */
  method CreateTracks(ctx: Context, objects: seq<Item>) returns (tracks: Option<seq<Track>>)
    ensures tracks.None? <==> exists i :: 0 <= i < |objects| && objects[i].OtherItem?
    ensures tracks.Some? ==> |tracks.value| == |objects|
    ensures tracks.Some? ==> forall i :: 0 <= i < |objects| ==>
      objects[i].BundleItem? && tracks.value[i].BuiltFrom(ctx, objects[i].bundle)
  {
    var list: seq<Track> := [];
    for i := 0 to |objects|
      invariant |list| == i
      invariant forall j :: 0 <= j < i ==> objects[j].BundleItem? && list[j].BuiltFrom(ctx, objects[j].bundle)
    {
      match objects[i]
      case BundleItem(b) =>
        var t := new Track(ctx, b);
        list := list + [t];
      case OtherItem =>
        return None;
    }
    return Some(list);
  }
}
