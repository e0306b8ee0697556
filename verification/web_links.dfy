/**
 * The "Web Links" extension: a registry of links to music-metadata sites,
 * `Link.getUrl`, which fills a link's URL template with the escaped
 * metadata of the selected artist, album or track, and the two predicates
 * that enable the context menu and its items.
 *
 * The host's URI parser, its metadata fetches and the browser are not
 * modelled as code: a parsed URI is a `Uri` value and the three fetches
 * are the functions of a `Provider`, each of which may fail.
 */
module WebLinks {
  import opened Wrappers
  import opened Template
  import UriEncoding
  import RymSlug

  /** The resource types the host's URI parser can report; only three are supported. */
  datatype Kind = Artist | Album | Track | Other(name: string)

  predicate IsSupported(k: Kind) {
    !k.Other?
  }

  /** A parsed URI: its type and its base-62 id. */
  datatype Uri = Uri(kind: Kind, id: string)

  /** An object of the fetched JSON that carries a `name`. */
  datatype Named = Named(name: string)

  /** The fields of a fetched track that `getUrl` reads: `artists[*].name`, `album.name`, `name`. */
  datatype TrackRecord = TrackRecord(artists: seq<Named>, album: Named, name: string)

  /** The fields of a fetched album that `getUrl` reads: `artists[*].name`, `name`, `type`. */
  datatype AlbumRecord = AlbumRecord(artists: seq<Named>, name: string, albumType: string)

  /** The field of a fetched artist that `getUrl` reads: `info.name`. */
  datatype ArtistRecord = ArtistRecord(info: Named)

  /** The three fetches by base-62 id; a failed fetch carries the rejection reason. */
  datatype Provider = Provider(
    fetchArtist: string -> Result<ArtistRecord, string>,
    fetchAlbum: string -> Result<AlbumRecord, string>,
    fetchTrack: string -> Result<TrackRecord, string>)

  datatype Error =
    | UnsupportedType          // the `throw "unsupported type"` of the default case
    | FetchFailed(reason: string)  // a rejected fetch, propagated as it is
    | NoArtist                 // `artists[0]` is undefined, so reading its `name` throws
    | TemplateUndefined        // the link has no template for the kind, so `url.replace` throws

  /** A link: its menu text, its escape and up to three URL templates. */
  datatype Link = Link(
    text: string,
    urlEncoder: string -> string,
    artistUrl: Option<string>,
    albumUrl: Option<string>,
    trackUrl: Option<string>)

  /** The template field `getUrl` reads for a kind. */
  function TemplateFor(link: Link, k: Kind): Option<string> {
    match k
    case Artist => link.artistUrl
    case Album => link.albumUrl
    case Track => link.trackUrl
    case Other(_) => None
  }

  /** The replacement keys `getUrl` builds for a kind. */
  function KeysOf(k: Kind): set<string> {
    match k
    case Track => {"artist", "album", "track"}
    case Album => {"artist", "album", "type"}
    case Artist => {"artist"}
    case Other(_) => {}
  }

  /**
   * The `switch` of `getUrl` up to the `replace`: fetch the record of the
   * URI's kind and build the replacement object from it. A rejected fetch is
   * passed on unchanged; an empty artist list makes `artists[0].name` throw.
   */
  function Replacements(uri: Uri, provider: Provider): (r: Result<map<string, string>, Error>)
    ensures uri.kind.Other? ==> r == Failure(UnsupportedType)
    ensures r.Success? ==> IsSupported(uri.kind) && r.value.Keys == KeysOf(uri.kind)
    ensures uri.kind == Artist && provider.fetchArtist(uri.id).Failure? ==> r == Failure(FetchFailed(provider.fetchArtist(uri.id).error))
    ensures uri.kind == Album && provider.fetchAlbum(uri.id).Failure? ==> r == Failure(FetchFailed(provider.fetchAlbum(uri.id).error))
    ensures uri.kind == Track && provider.fetchTrack(uri.id).Failure? ==> r == Failure(FetchFailed(provider.fetchTrack(uri.id).error))
    ensures r == Failure(NoArtist) ==> uri.kind == Album || uri.kind == Track
    ensures uri.kind == Track && provider.fetchTrack(uri.id).Success? ==>
      (r.Success? <==> |provider.fetchTrack(uri.id).value.artists| > 0) && (r.Failure? ==> r.error == NoArtist)
    ensures uri.kind == Album && provider.fetchAlbum(uri.id).Success? ==>
      (r.Success? <==> |provider.fetchAlbum(uri.id).value.artists| > 0) && (r.Failure? ==> r.error == NoArtist)
    ensures uri.kind == Artist && provider.fetchArtist(uri.id).Success? ==> r.Success?
    ensures r.Success? && uri.kind == Track ==>
      provider.fetchTrack(uri.id).Success? && |provider.fetchTrack(uri.id).value.artists| > 0 &&
      var track := provider.fetchTrack(uri.id).value;
      r.value["artist"] == track.artists[0].name && r.value["album"] == track.album.name && r.value["track"] == track.name
    ensures r.Success? && uri.kind == Album ==>
      provider.fetchAlbum(uri.id).Success? && |provider.fetchAlbum(uri.id).value.artists| > 0 &&
      var album := provider.fetchAlbum(uri.id).value;
      r.value["artist"] == album.artists[0].name && r.value["album"] == album.name && r.value["type"] == album.albumType
    ensures r.Success? && uri.kind == Artist ==>
      provider.fetchArtist(uri.id).Success? && r.value["artist"] == provider.fetchArtist(uri.id).value.info.name
  {
    match uri.kind
    case Track =>
      (match provider.fetchTrack(uri.id)
       case Failure(e) => Failure(FetchFailed(e))
       case Success(track) =>
         if |track.artists| == 0 then Failure(NoArtist)
         else Success(map["artist" := track.artists[0].name, "album" := track.album.name, "track" := track.name]))
    case Album =>
      (match provider.fetchAlbum(uri.id)
       case Failure(e) => Failure(FetchFailed(e))
       case Success(album) =>
         if |album.artists| == 0 then Failure(NoArtist)
         else Success(map["artist" := album.artists[0].name, "album" := album.name, "type" := album.albumType]))
    case Artist =>
      (match provider.fetchArtist(uri.id)
       case Failure(e) => Failure(FetchFailed(e))
       case Success(artist) => Success(map["artist" := artist.info.name]))
    case Other(_) =>
      Failure(UnsupportedType)
  }

  /**
   * `Link.getUrl`: the URL a link opens for a URI. It fails with the error
   * of the fetch stage if that fails (even when the template is missing,
   * since the fetch comes first), then with `TemplateUndefined` if the link
   * has no template for the kind; otherwise it is the kind's template
   * rendered with the kind's replacements and the link's escape.
   */
  function GetUrl(link: Link, uri: Uri, provider: Provider): (r: Result<string, Error>)
    ensures uri.kind.Other? ==> r == Failure(UnsupportedType)
    ensures Replacements(uri, provider).Failure? ==> r == Failure(Replacements(uri, provider).error)
    ensures Replacements(uri, provider).Success? && TemplateFor(link, uri.kind).None? ==> r == Failure(TemplateUndefined)
    ensures r.Success? <==> Replacements(uri, provider).Success? && TemplateFor(link, uri.kind).Some?
    ensures r.Success? ==> r.value == Render(TemplateFor(link, uri.kind).value, Replacements(uri, provider).value, link.urlEncoder)
  {
    var repl :- Replacements(uri, provider);
    match TemplateFor(link, uri.kind)
    case None => Failure(TemplateUndefined)
    case Some(t) => Success(Render(t, repl, link.urlEncoder))
  }

  /*
   * The URL templates of the registry. Each is written split at its tokens
   * (the value is the same string) so that its shape can be read off.
   */
  const LastFmArtistUrl := "https://www.last.fm/music/" + "{artist}"
  const LastFmAlbumUrl := "https://www.last.fm/music/" + "{artist}" + ("/" + "{album}")
  const LastFmTrackUrl := "https://www.last.fm/music/" + "{artist}" + ("/" + "{album}" + ("/" + "{track}"))
  const RymArtistUrl := "https://rateyourmusic.com/artist/" + "{artist}"
  const RymAlbumUrl := "https://rateyourmusic.com/release/" + "{type}" + ("/" + "{artist}" + ("/" + "{album}" + "/"))
  const RymTrackUrl := "https://rateyourmusic.com/release/single/" + "{artist}" + ("/" + "{track}" + "/")
  const RymSearchArtistUrl := "https://rateyourmusic.com/search?searchterm=" + "{artist}" + "&searchtype=a"
  const RymSearchAlbumUrl := "https://rateyourmusic.com/search?searchterm=" + "{artist}" + ("%20" + "{album}" + "&searchtype=l")
  const RymSearchTrackUrl := "https://rateyourmusic.com/search?searchterm=" + "{artist}" + ("%20" + "{track}" + "&searchtype=l")

  /** The last.fm music pages, escaped with encodeURIComponent. */
  const LastFm := Link("LastFm", UriEncoding.EncodeURIComponent,
                       Some(LastFmArtistUrl), Some(LastFmAlbumUrl), Some(LastFmTrackUrl))

  /** The rateyourmusic.com pages, escaped with the RYM slug escape. */
  const Rym := Link("RYM", RymSlug.Escape,
                    Some(RymArtistUrl), Some(RymAlbumUrl), Some(RymTrackUrl))

  /** The rateyourmusic.com search, escaped with encodeURIComponent. */
  const RymSearch := Link("RYM search", UriEncoding.EncodeURIComponent,
                          Some(RymSearchArtistUrl), Some(RymSearchAlbumUrl), Some(RymSearchTrackUrl))

  /** The registry, in declaration order: three links, each with a template for every supported kind. */
  function Links(): (links: seq<Link>)
    ensures |links| == 3
    ensures forall i, k :: 0 <= i < |links| && IsSupported(k) ==> TemplateFor(links[i], k).Some?
  {
    [LastFm, Rym, RymSearch]
  }

  /** The gate of the "Web links" submenu: exactly one URI is selected and it is an artist, album or track. */
  function SubmenuEnabled(uris: seq<Uri>): (r: bool)
    ensures r <==> |uris| == 1 && IsSupported(uris[0].kind)
  {
    if |uris| == 1 then
      match uris[0].kind
      case Artist => true
      case Album => true
      case Track => true
      case Other(_) => false
    else
      false
  }

  /** The per-item predicate: the link defines the template for the kind of the first selected URI. */
  function ItemEnabled(link: Link, uri: Uri): (r: bool)
    ensures r <==> TemplateFor(link, uri.kind).Some?
  {
    match uri.kind
    case Artist => link.artistUrl.Some?
    case Album => link.albumUrl.Some?
    case Track => link.trackUrl.Some?
    case Other(_) => false
  }

  /** The LastFm artist template: the escaped artist name as the last path segment. */
  lemma LastFmArtistTemplate(repl: map<string, string>, escape: string -> string)
    ensures Render(LastFmArtistUrl, repl, escape)
         == "https://www.last.fm/music/" + escape(Substitute(repl, "artist"))
    ensures Placeholders(LastFmArtistUrl) == ["artist"]
  {
    var base := "https://www.last.fm/music/";
    assert '{' !in base;
    assert LastFmArtistUrl == base + Delimit("artist");
    RenderFinalSlot(base, "artist", repl, escape);
  }

  /** The LastFm album template: artist, then album, as path segments. */
  lemma LastFmAlbumTemplate(repl: map<string, string>, escape: string -> string)
    ensures Render(LastFmAlbumUrl, repl, escape)
         == "https://www.last.fm/music/" + escape(Substitute(repl, "artist")) + ("/" + escape(Substitute(repl, "album")))
    ensures Placeholders(LastFmAlbumUrl) == ["artist", "album"]
  {
    var base := "https://www.last.fm/music/";
    assert '{' !in base;
    assert LastFmAlbumUrl == base + Delimit("artist") + ("/" + Delimit("album"));
    RenderTwoSlotsFinal(base, "artist", "/", "album", repl, escape);
  }

  /** The LastFm track template: artist, album, then track, as path segments. */
  lemma LastFmTrackTemplate(repl: map<string, string>, escape: string -> string)
    ensures Render(LastFmTrackUrl, repl, escape)
         == "https://www.last.fm/music/" + escape(Substitute(repl, "artist")) + ("/" + escape(Substitute(repl, "album")) + ("/" + escape(Substitute(repl, "track"))))
    ensures Placeholders(LastFmTrackUrl) == ["artist", "album", "track"]
  {
    var base := "https://www.last.fm/music/";
    assert '{' !in base;
    assert LastFmTrackUrl == base + Delimit("artist") + ("/" + Delimit("album") + ("/" + Delimit("track")));
    RenderThreeSlotsFinal(base, "artist", "/", "album", "/", "track", repl, escape);
  }

  /** The RYM artist template: the artist slug as the last path segment. */
  lemma RymArtistTemplate(repl: map<string, string>, escape: string -> string)
    ensures Render(RymArtistUrl, repl, escape)
         == "https://rateyourmusic.com/artist/" + escape(Substitute(repl, "artist"))
    ensures Placeholders(RymArtistUrl) == ["artist"]
  {
    var base := "https://rateyourmusic.com/artist/";
    assert '{' !in base;
    assert RymArtistUrl == base + Delimit("artist");
    RenderFinalSlot(base, "artist", repl, escape);
  }

  /** The RYM album template: release type, artist, then album, with a closing slash. */
  lemma RymAlbumTemplate(repl: map<string, string>, escape: string -> string)
    ensures Render(RymAlbumUrl, repl, escape)
         == "https://rateyourmusic.com/release/" + escape(Substitute(repl, "type")) + ("/" + escape(Substitute(repl, "artist")) + ("/" + escape(Substitute(repl, "album")) + "/"))
    ensures Placeholders(RymAlbumUrl) == ["type", "artist", "album"]
  {
    var base := "https://rateyourmusic.com/release/";
    assert '{' !in base;
    assert RymAlbumUrl == base + Delimit("type") + ("/" + Delimit("artist") + ("/" + Delimit("album") + "/"));
    RenderThreeSlots(base, "type", "/", "artist", "/", "album", "/", repl, escape);
  }

  /** The RYM track template: a single by the artist, with a closing slash. */
  lemma RymTrackTemplate(repl: map<string, string>, escape: string -> string)
    ensures Render(RymTrackUrl, repl, escape)
         == "https://rateyourmusic.com/release/single/" + escape(Substitute(repl, "artist")) + ("/" + escape(Substitute(repl, "track")) + "/")
    ensures Placeholders(RymTrackUrl) == ["artist", "track"]
  {
    var base := "https://rateyourmusic.com/release/single/";
    assert '{' !in base;
    assert RymTrackUrl == base + Delimit("artist") + ("/" + Delimit("track") + "/");
    RenderTwoSlots(base, "artist", "/", "track", "/", repl, escape);
  }

  /** The RYM search artist template: the artist as the search term, searching artists. */
  lemma RymSearchArtistTemplate(repl: map<string, string>, escape: string -> string)
    ensures Render(RymSearchArtistUrl, repl, escape)
         == "https://rateyourmusic.com/search?searchterm=" + escape(Substitute(repl, "artist")) + "&searchtype=a"
    ensures Placeholders(RymSearchArtistUrl) == ["artist"]
  {
    var base := "https://rateyourmusic.com/search?searchterm=";
    assert '{' !in base;
    assert RymSearchArtistUrl == base + Delimit("artist") + "&searchtype=a";
    RenderOneSlot(base, "artist", "&searchtype=a", repl, escape);
  }

  /** The RYM search album template: artist and album joined by an encoded space, searching releases. */
  lemma RymSearchAlbumTemplate(repl: map<string, string>, escape: string -> string)
    ensures Render(RymSearchAlbumUrl, repl, escape)
         == "https://rateyourmusic.com/search?searchterm=" + escape(Substitute(repl, "artist")) + ("%20" + escape(Substitute(repl, "album")) + "&searchtype=l")
    ensures Placeholders(RymSearchAlbumUrl) == ["artist", "album"]
  {
    var base := "https://rateyourmusic.com/search?searchterm=";
    assert '{' !in base;
    assert RymSearchAlbumUrl == base + Delimit("artist") + ("%20" + Delimit("album") + "&searchtype=l");
    RenderTwoSlots(base, "artist", "%20", "album", "&searchtype=l", repl, escape);
  }

  /** The RYM search track template: artist and track joined by an encoded space, searching releases. */
  lemma RymSearchTrackTemplate(repl: map<string, string>, escape: string -> string)
    ensures Render(RymSearchTrackUrl, repl, escape)
         == "https://rateyourmusic.com/search?searchterm=" + escape(Substitute(repl, "artist")) + ("%20" + escape(Substitute(repl, "track")) + "&searchtype=l")
    ensures Placeholders(RymSearchTrackUrl) == ["artist", "track"]
  {
    var base := "https://rateyourmusic.com/search?searchterm=";
    assert '{' !in base;
    assert RymSearchTrackUrl == base + Delimit("artist") + ("%20" + Delimit("track") + "&searchtype=l");
    RenderTwoSlots(base, "artist", "%20", "track", "&searchtype=l", repl, escape);
  }

  /**
   * What the LastFm link opens once the metadata is fetched: the names,
   * each through encodeURIComponent, as the path of a last.fm music page.
   */
  lemma LastFmUrls(uri: Uri, provider: Provider)
    ensures uri.kind == Artist && provider.fetchArtist(uri.id).Success? ==>
      var artist := provider.fetchArtist(uri.id).value;
      GetUrl(LastFm, uri, provider)
        == Success("https://www.last.fm/music/" + UriEncoding.EncodeURIComponent(artist.info.name))
    ensures uri.kind == Album && provider.fetchAlbum(uri.id).Success? && |provider.fetchAlbum(uri.id).value.artists| > 0 ==>
      var album := provider.fetchAlbum(uri.id).value;
      GetUrl(LastFm, uri, provider)
        == Success("https://www.last.fm/music/" + UriEncoding.EncodeURIComponent(album.artists[0].name)
                   + ("/" + UriEncoding.EncodeURIComponent(album.name)))
    ensures uri.kind == Track && provider.fetchTrack(uri.id).Success? && |provider.fetchTrack(uri.id).value.artists| > 0 ==>
      var track := provider.fetchTrack(uri.id).value;
      GetUrl(LastFm, uri, provider)
        == Success("https://www.last.fm/music/" + UriEncoding.EncodeURIComponent(track.artists[0].name)
                   + ("/" + UriEncoding.EncodeURIComponent(track.album.name)
                   + ("/" + UriEncoding.EncodeURIComponent(track.name))))
  {
    var enc := UriEncoding.EncodeURIComponent;
    match uri.kind
    case Artist =>
      if provider.fetchArtist(uri.id).Success? {
        LastFmArtistTemplate(Replacements(uri, provider).value, enc);
      }
    case Album =>
      if provider.fetchAlbum(uri.id).Success? && |provider.fetchAlbum(uri.id).value.artists| > 0 {
        LastFmAlbumTemplate(Replacements(uri, provider).value, enc);
      }
    case Track =>
      if provider.fetchTrack(uri.id).Success? && |provider.fetchTrack(uri.id).value.artists| > 0 {
        LastFmTrackTemplate(Replacements(uri, provider).value, enc);
      }
    case Other(_) =>
  }

  /**
   * What the RYM link opens once the metadata is fetched: the names, each
   * through the RYM slug escape, as the path of a rateyourmusic.com page;
   * an album's page is under its release type, a track's under "single".
   */
  lemma RymUrls(uri: Uri, provider: Provider)
    ensures uri.kind == Artist && provider.fetchArtist(uri.id).Success? ==>
      var artist := provider.fetchArtist(uri.id).value;
      GetUrl(Rym, uri, provider)
        == Success("https://rateyourmusic.com/artist/" + RymSlug.Escape(artist.info.name))
    ensures uri.kind == Album && provider.fetchAlbum(uri.id).Success? && |provider.fetchAlbum(uri.id).value.artists| > 0 ==>
      var album := provider.fetchAlbum(uri.id).value;
      GetUrl(Rym, uri, provider)
        == Success("https://rateyourmusic.com/release/" + RymSlug.Escape(album.albumType)
                   + ("/" + RymSlug.Escape(album.artists[0].name)
                   + ("/" + RymSlug.Escape(album.name) + "/")))
    ensures uri.kind == Track && provider.fetchTrack(uri.id).Success? && |provider.fetchTrack(uri.id).value.artists| > 0 ==>
      var track := provider.fetchTrack(uri.id).value;
      GetUrl(Rym, uri, provider)
        == Success("https://rateyourmusic.com/release/single/" + RymSlug.Escape(track.artists[0].name)
                   + ("/" + RymSlug.Escape(track.name) + "/"))
  {
    var slug := RymSlug.Escape;
    match uri.kind
    case Artist =>
      if provider.fetchArtist(uri.id).Success? {
        RymArtistTemplate(Replacements(uri, provider).value, slug);
      }
    case Album =>
      if provider.fetchAlbum(uri.id).Success? && |provider.fetchAlbum(uri.id).value.artists| > 0 {
        RymAlbumTemplate(Replacements(uri, provider).value, slug);
      }
    case Track =>
      if provider.fetchTrack(uri.id).Success? && |provider.fetchTrack(uri.id).value.artists| > 0 {
        RymTrackTemplate(Replacements(uri, provider).value, slug);
      }
    case Other(_) =>
  }

  /**
   * What the RYM search link opens once the metadata is fetched: a search
   * for the artist (among artists), or for the artist and the album or
   * track joined by an encoded space (among releases), each name through
   * encodeURIComponent.
   */
  lemma RymSearchUrls(uri: Uri, provider: Provider)
    ensures uri.kind == Artist && provider.fetchArtist(uri.id).Success? ==>
      var artist := provider.fetchArtist(uri.id).value;
      GetUrl(RymSearch, uri, provider)
        == Success("https://rateyourmusic.com/search?searchterm=" + UriEncoding.EncodeURIComponent(artist.info.name)
                   + "&searchtype=a")
    ensures uri.kind == Album && provider.fetchAlbum(uri.id).Success? && |provider.fetchAlbum(uri.id).value.artists| > 0 ==>
      var album := provider.fetchAlbum(uri.id).value;
      GetUrl(RymSearch, uri, provider)
        == Success("https://rateyourmusic.com/search?searchterm=" + UriEncoding.EncodeURIComponent(album.artists[0].name)
                   + ("%20" + UriEncoding.EncodeURIComponent(album.name) + "&searchtype=l"))
    ensures uri.kind == Track && provider.fetchTrack(uri.id).Success? && |provider.fetchTrack(uri.id).value.artists| > 0 ==>
      var track := provider.fetchTrack(uri.id).value;
      GetUrl(RymSearch, uri, provider)
        == Success("https://rateyourmusic.com/search?searchterm=" + UriEncoding.EncodeURIComponent(track.artists[0].name)
                   + ("%20" + UriEncoding.EncodeURIComponent(track.name) + "&searchtype=l"))
  {
    var enc := UriEncoding.EncodeURIComponent;
    match uri.kind
    case Artist =>
      if provider.fetchArtist(uri.id).Success? {
        RymSearchArtistTemplate(Replacements(uri, provider).value, enc);
      }
    case Album =>
      if provider.fetchAlbum(uri.id).Success? && |provider.fetchAlbum(uri.id).value.artists| > 0 {
        RymSearchAlbumTemplate(Replacements(uri, provider).value, enc);
      }
    case Track =>
      if provider.fetchTrack(uri.id).Success? && |provider.fetchTrack(uri.id).value.artists| > 0 {
        RymSearchTrackTemplate(Replacements(uri, provider).value, enc);
      }
    case Other(_) =>
  }

  /**
   * Every shipped link has a template for each supported kind, and each
   * token in it names a key that `getUrl` builds for that kind: the escape
   * is never handed a token's own text.
   */
  lemma RegistryPlaceholders(i: nat, k: Kind)
    requires i < |Links()| && IsSupported(k)
    ensures TemplateFor(Links()[i], k).Some?
    ensures forall j :: 0 <= j < |Placeholders(TemplateFor(Links()[i], k).value)| ==>
      Placeholders(TemplateFor(Links()[i], k).value)[j] in KeysOf(k)
  {
    var id := (s: string) => s;
    match k
    case Artist =>
      if i == 0 { LastFmArtistTemplate(map[], id); }
      else if i == 1 { RymArtistTemplate(map[], id); }
      else { RymSearchArtistTemplate(map[], id); }
    case Album =>
      if i == 0 { LastFmAlbumTemplate(map[], id); }
      else if i == 1 { RymAlbumTemplate(map[], id); }
      else { RymSearchAlbumTemplate(map[], id); }
    case Track =>
      if i == 0 { LastFmTrackTemplate(map[], id); }
      else if i == 1 { RymTrackTemplate(map[], id); }
      else { RymSearchTrackTemplate(map[], id); }
  }

  /**
   * When the submenu is shown, every item of the registry is enabled for
   * the selected URI, and clicking it yields a URL unless the fetch fails or
   * the fetched album or track lists no artist.
   */
  lemma ShownItemsOpenUrls(uris: seq<Uri>, provider: Provider, i: nat)
    requires SubmenuEnabled(uris) && i < |Links()|
    ensures ItemEnabled(Links()[i], uris[0])
    ensures GetUrl(Links()[i], uris[0], provider).Success? <==> Replacements(uris[0], provider).Success?
    ensures GetUrl(Links()[i], uris[0], provider).Failure? ==>
      GetUrl(Links()[i], uris[0], provider).error.FetchFailed? || GetUrl(Links()[i], uris[0], provider).error == NoArtist
  {
    RegistryPlaceholders(i, uris[0].kind);
  }

  /**
   * Under encodeURIComponent, a token whose name has no replacement comes
   * out with its braces percent-encoded and its name unchanged.
   */
  lemma EncodedUnmatchedToken(repl: map<string, string>, name: string)
    requires IsName(name) && name !in repl
    ensures UriEncoding.EncodeURIComponent(Substitute(repl, name)) == "%7B" + name + "%7D"
  {
    EncodeDelimited(name);
    UriEncoding.EncodeBraces();
  }

  /** Encoding a token encodes its braces and leaves its name, made of word characters, alone. */
  lemma EncodeDelimited(name: string)
    requires IsName(name)
    ensures UriEncoding.EncodeURIComponent(Delimit(name))
         == UriEncoding.EncodeURIComponent("{") + name + UriEncoding.EncodeURIComponent("}")
  {
    UriEncoding.EncodeConcat("{", name);
    UriEncoding.EncodeConcat("{" + name, "}");
    UriEncoding.EncodeFixedPoint(name);
  }
}
