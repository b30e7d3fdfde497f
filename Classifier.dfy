/** `check_url` (songwhip.py:36-52) and the allow-list it consults
    (songwhip.py:18-33): is a URL a supported music URL?  The URL arrives
    already split into scheme, host and path, as `yarl.URL` would split it. */
module Classifier {
  import opened Regex
  import opened Patterns

  datatype Option<T> = None | Some(value: T)

  /** A parsed URL: the parts of `yarl.URL` that `check_url` reads. */
  datatype Url = Url(scheme: string, host: string, path: string)

  /** `allowed_domains`: host, without `www.`, to the pattern its paths must match. */
  const AllowedDomains: map<string, Matcher> := map[
    "open.spotify.com" := Spotify,
    "play.spotify.com" := Spotify,
    "itunes.apple.com" := Apple,
    "music.apple.com" := Apple,
    "itun.es" := Anything,
    "deezer.com" := Deezer,
    "play.google.com" := GooglePlay,
    "youtube.com" := YouTube,
    "youtu.be" := Anything,
    "tidal.com" := Tidal,
    "listen.tidal.com" := Tidal,
    "music.yandex.com" := Yandex,
    "music.yandex.ru" := Yandex,
    "soundcloud.com" := SoundCloud
  ]

  const AmazonPrefix: string := "music.amazon."
  /** `len("music.amazon.co.uk")`: Amazon hosts may carry a suffix of up to five characters. */
  const AmazonMaxHostLength: nat := |"music.amazon.co.uk"|

  predicate SchemeAllowed(scheme: string) {
    scheme == "http" || scheme == "https"
  }

  /** Removes one leading `www.`, and only one. */
  function StripWww(host: string): (h: string)
    ensures "www." <= host ==> "www." + h == host
    ensures !("www." <= host) ==> h == host
  {
    if "www." <= host then host[4..] else host
  }

  /** The Amazon special case: a host starting with `music.amazon.` that is no
      longer than `music.amazon.co.uk`. */
  predicate IsAmazonHost(h: string) {
    AmazonPrefix <= h && |h| <= AmazonMaxHostLength
  }

  /** The pattern `check_url` picks for a host with `www.` already removed;
      `None` where the dictionary lookup raises `KeyError`. */
  function Route(h: string): (m: Option<Matcher>)
    ensures IsAmazonHost(h) ==> m == Some(Amazon)
    ensures !IsAmazonHost(h) ==> (m.Some? <==> h in AllowedDomains)
    ensures !IsAmazonHost(h) && h in AllowedDomains ==> m == Some(AllowedDomains[h])
  {
    if IsAmazonHost(h) then Some(Amazon)
    else if h in AllowedDomains then Some(AllowedDomains[h])
    else None
  }

  /** `check_url`: only `http` and `https` URLs of a host the allow-list or the
      Amazon special case routes can be accepted, and the `anything` sentinel
      accepts every path. */
  function CheckUrl(u: Url): (ok: bool)
    ensures ok ==> SchemeAllowed(u.scheme) && Route(StripWww(u.host)).Some?
    ensures SchemeAllowed(u.scheme) && Route(StripWww(u.host)) == Some(Anything) ==> ok
  {
    if !SchemeAllowed(u.scheme) then false
    else
      match Route(StripWww(u.host))
      case None => false
      case Some(m) => m == Anything || MatchesPath(m, u.path)
  }

  /** The answer of `check_url` is the one Python's `re.match` gives with the
      pattern of the host, except that the `anything` sentinel accepts every
      path without being run. */
  lemma CheckUrlIsReMatch(u: Url)
    ensures CheckUrl(u) <==>
      SchemeAllowed(u.scheme) &&
      match Route(StripWww(u.host))
      case None => false
      case Some(m) => m == Anything || Match(PatternOf(m), u.path)
  {
    match Route(StripWww(u.host))
    case None =>
    case Some(m) => MatchesPathAgrees(m, u.path);
  }

  // ---------------------------------------------------------------------------
  // The allow-list
  // ---------------------------------------------------------------------------

  /** No key of the allow-list starts with `www.`, so stripping it is all the
      normalisation a listed host needs. */
  lemma NoKeyStartsWithWww()
    ensures forall k | k in AllowedDomains :: !("www." <= k)
  {
    forall k | k in AllowedDomains
      ensures !("www." <= k)
    {
      assert k[0] != 'w';
    }
  }

  /** No key of the allow-list starts with `music.amazon.`: the special case is
      the only way to Amazon Music. */
  lemma NoKeyIsAmazon()
    ensures forall k | k in AllowedDomains :: !(AmazonPrefix <= k) && AllowedDomains[k] != Amazon
  {
    forall k | k in AllowedDomains
      ensures !(AmazonPrefix <= k)
    {
      assert k[0] != 'm' || k[6] != 'a' || k[7] != 'm';
    }
  }

  /** Exactly `itun.es` and `youtu.be` map to the `anything` sentinel. */
  lemma AnythingHosts()
    ensures forall k | k in AllowedDomains :: AllowedDomains[k] == Anything <==> k == "itun.es" || k == "youtu.be"
  {
  }

  // ---------------------------------------------------------------------------
  // What check_url promises
  // ---------------------------------------------------------------------------

  /** A scheme other than `http` or `https` is rejected whatever the host and path. */
  lemma SchemeGate(u: Url)
    requires !SchemeAllowed(u.scheme)
    ensures !CheckUrl(u)
  {
  }

  /** For a host that does not itself start with `www.`, adding one `www.`
      changes nothing. */
  lemma WwwIgnored(scheme: string, h: string, path: string)
    requires !("www." <= h)
    ensures CheckUrl(Url(scheme, "www." + h, path)) == CheckUrl(Url(scheme, h, path))
  {
    assert ("www." + h)[4..] == h;
  }

  /** Only one `www.` is removed: a host starting with `www.www.` is never
      accepted, `www.www.open.spotify.com` among them. */
  lemma DoubleWwwRejected(u: Url)
    requires "www.www." <= u.host
    ensures !CheckUrl(u)
  {
    var h := StripWww(u.host);
    assert "www." <= h by {
      assert h == u.host[4..];
      assert u.host[4..8] == "www.";
    }
    NoKeyStartsWithWww();
    assert !(AmazonPrefix <= h) by {
      assert h[0] != AmazonPrefix[0];
    }
  }

  /** A short `music.amazon.` host is judged by `/albums/.+` alone. */
  lemma AmazonShortHost(u: Url)
    requires IsAmazonHost(StripWww(u.host))
    ensures CheckUrl(u) <==> SchemeAllowed(u.scheme) && AmazonPath(u.path)
  {
    AmazonAgrees(u.path);
  }

  /** A `music.amazon.` host longer than `music.amazon.co.uk` is rejected for
      every path, since the allow-list does not hold it either. */
  lemma AmazonLongHostRejected(u: Url)
    requires AmazonPrefix <= StripWww(u.host) && |StripWww(u.host)| > AmazonMaxHostLength
    ensures !CheckUrl(u)
  {
    NoKeyIsAmazon();
  }

  /** Only listed hosts and short Amazon hosts are ever accepted. */
  lemma AcceptedHostIsKnown(u: Url)
    requires CheckUrl(u)
    ensures StripWww(u.host) in AllowedDomains || IsAmazonHost(StripWww(u.host))
  {
  }

  /** `itun.es` and `youtu.be` accept every path, the empty one included,
      although their pattern `.+` would not match the empty path. */
  lemma AnythingAcceptsEveryPath(u: Url)
    requires SchemeAllowed(u.scheme)
    requires StripWww(u.host) == "itun.es" || StripWww(u.host) == "youtu.be"
    ensures CheckUrl(u)
    ensures !Match(PatternOf(Anything), "")
  {
    AnyRestAgrees("");
  }

  /** Matching is anchored at the start of the path only: whatever follows an
      accepted path keeps it accepted. */
  lemma AcceptedPathExtends(u: Url, suffix: string)
    requires CheckUrl(u)
    ensures CheckUrl(u.(path := u.path + suffix))
  {
    CheckUrlIsReMatch(u);
    CheckUrlIsReMatch(u.(path := u.path + suffix));
    match Route(StripWww(u.host))
    case Some(m) =>
      if m != Anything {
        MatchExtends(PatternOf(m), u.path, suffix);
      }
  }

  // ---------------------------------------------------------------------------
  // Worked examples
  // ---------------------------------------------------------------------------

  /** A listed host is used as it is: no `www.` to strip, no Amazon case. */
  lemma ListedHost(h: string)
    requires h in AllowedDomains
    ensures StripWww(h) == h && Route(h) == Some(AllowedDomains[h])
  {
    NoKeyStartsWithWww();
    NoKeyIsAmazon();
  }

  /** How a listed host decides, in terms of the hand-written predicates. */
  lemma ListedHostDecides(u: Url)
    requires StripWww(u.host) in AllowedDomains
    ensures CheckUrl(u) <==>
      SchemeAllowed(u.scheme) &&
      (AllowedDomains[StripWww(u.host)] == Anything || MatchesPath(AllowedDomains[StripWww(u.host)], u.path))
  {
    ListedHost(StripWww(u.host));
  }

  /** A listed host whose pattern accepts the path. */
  lemma ListedPathAccepted(u: Url, m: Matcher)
    requires SchemeAllowed(u.scheme)
    requires u.host in AllowedDomains && AllowedDomains[u.host] == m
    requires m == Anything || MatchesPath(m, u.path)
    ensures CheckUrl(u)
  {
    ListedHost(u.host);
  }

  /** A listed host whose pattern refuses the path. */
  lemma ListedPathRejected(u: Url, m: Matcher)
    requires u.host in AllowedDomains && AllowedDomains[u.host] == m
    requires m != Anything && !MatchesPath(m, u.path)
    ensures !CheckUrl(u)
  {
    ListedHost(u.host);
  }

  /** The allow-list entries the examples below use. */
  lemma ExampleHosts()
    ensures "open.spotify.com" in AllowedDomains && AllowedDomains["open.spotify.com"] == Spotify
    ensures "itunes.apple.com" in AllowedDomains && AllowedDomains["itunes.apple.com"] == Apple
    ensures "itun.es" in AllowedDomains && AllowedDomains["itun.es"] == Anything
    ensures "deezer.com" in AllowedDomains && AllowedDomains["deezer.com"] == Deezer
    ensures "youtube.com" in AllowedDomains && AllowedDomains["youtube.com"] == YouTube
    ensures "music.yandex.com" in AllowedDomains && AllowedDomains["music.yandex.com"] == Yandex
    ensures "music.yandex.ru" in AllowedDomains && AllowedDomains["music.yandex.ru"] == Yandex
  {
  }

  lemma SpotifyAlbumAccepted()
    ensures CheckUrl(Url("https", "open.spotify.com", "/album/x"))
  {
    SpotifyAlbumPath();
    ExampleHosts();
    ListedPathAccepted(Url("https", "open.spotify.com", "/album/x"), Spotify);
  }

  lemma SpotifyTrackAccepted()
    ensures CheckUrl(Url("https", "open.spotify.com", "/track/abc"))
  {
    SpotifyTrackPath();
    ExampleHosts();
    ListedPathAccepted(Url("https", "open.spotify.com", "/track/abc"), Spotify);
  }

  lemma ItunesAccepted(path: string)
    ensures CheckUrl(Url("https", "itun.es", path))
  {
    ExampleHosts();
    ListedPathAccepted(Url("https", "itun.es", path), Anything);
  }

  /** `www.` is ignored. */
  lemma SpotifyWwwAccepted()
    ensures CheckUrl(Url("https", "www.open.spotify.com", "/album/x"))
  {
    SpotifyAlbumAccepted();
    var h := "open.spotify.com";
    assert h[0] == 'o';
    WwwIgnored("https", h, "/album/x");
    WwwSpotifyHost();
  }

  lemma WwwSpotifyHost()
    ensures "www." + "open.spotify.com" == "www.open.spotify.com"
  {
  }

  lemma SpotifyPlaylistRejected()
    ensures !CheckUrl(Url("https", "open.spotify.com", "/playlist/abc"))
  {
    PlaylistIsNoResource();
    ExampleHosts();
    ListedPathRejected(Url("https", "open.spotify.com", "/playlist/abc"), Spotify);
  }

  lemma YouTubeWatchAccepted()
    ensures CheckUrl(Url("https", "youtube.com", "/watch"))
    ensures CheckUrl(Url("https", "youtube.com", "/watchlater"))
  {
    WatchPaths();
    ExampleHosts();
    ListedPathAccepted(Url("https", "youtube.com", "/watch"), YouTube);
    ExampleHosts();
    ListedPathAccepted(Url("https", "youtube.com", "/watchlater"), YouTube);
  }

  lemma YouTubeResultsRejected()
    ensures !CheckUrl(Url("https", "youtube.com", "/results"))
  {
    WatchPaths();
    ExampleHosts();
    ListedPathRejected(Url("https", "youtube.com", "/results"), YouTube);
  }

  /** A two- or five-character Amazon suffix is short enough. */
  lemma AmazonAlbumAccepted()
    ensures CheckUrl(Url("https", "music.amazon.de", "/albums/B000XYZ"))
    ensures CheckUrl(Url("https", "music.amazon.co.uk", "/albums/B000XYZ"))
  {
    assert "music.amazon.de"[0] != 'w' && "music.amazon.co.uk"[0] != 'w';
    AmazonShortHost(Url("https", "music.amazon.de", "/albums/B000XYZ"));
    AmazonShortHost(Url("https", "music.amazon.co.uk", "/albums/B000XYZ"));
    AmazonAlbumPath();
  }

  lemma AmazonLongSuffixRejected()
    ensures !CheckUrl(Url("https", "music.amazon.reallylongcc", "/albums/X"))
  {
    assert "music.amazon.reallylongcc"[0] != 'w';
    AmazonLongHostRejected(Url("https", "music.amazon.reallylongcc", "/albums/X"));
  }

  /** Yandex needs a character after the album number's first digit. */
  lemma YandexTwoCharacters()
    ensures CheckUrl(Url("https", "music.yandex.ru", "/album/12"))
    ensures !CheckUrl(Url("https", "music.yandex.ru", "/album/1"))
  {
    YandexAlbumPaths();
    ExampleHosts();
    ListedPathAccepted(Url("https", "music.yandex.ru", "/album/12"), Yandex);
    ExampleHosts();
    ListedPathRejected(Url("https", "music.yandex.ru", "/album/1"), Yandex);
  }

  lemma YandexTrackAccepted()
    ensures CheckUrl(Url("https", "music.yandex.com", "/album/1/track/23"))
  {
    YandexTrackPath();
    ExampleHosts();
    ListedPathAccepted(Url("https", "music.yandex.com", "/album/1/track/23"), Yandex);
  }

  /** Apple's locale and `id` prefix. */
  lemma AppleAlbumAccepted()
    ensures CheckUrl(Url("https", "itunes.apple.com", "/us/album/a/id1"))
  {
    AppleLocalePath();
    ExampleHosts();
    ListedPathAccepted(Url("https", "itunes.apple.com", "/us/album/a/id1"), Apple);
  }

  /** Deezer's optional prefix is any two word characters, not only letters. */
  lemma DeezerWordPrefixAccepted()
    ensures CheckUrl(Url("http", "deezer.com", "/_1/album/x"))
  {
    DeezerWordPrefixPath();
    ExampleHosts();
    ListedPathAccepted(Url("http", "deezer.com", "/_1/album/x"), Deezer);
  }
}
