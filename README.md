# Songwhip bot: a verified model of its link handling

The songwhip plugin for maubot watches Matrix rooms for music links and
answers with the matching page on songwhip.com. It has two entry points:

- the command `!songwhip <url>`, alias `!song`;
- a passive handler that scans every text message.

Both use `check_url` to decide whether a link points to a supported music
service. `check_url` takes the URL's scheme, strips one `www.` from the host,
and picks a path pattern for that host. Short `music.amazon.` hosts get the
Amazon pattern. Every other host is looked up in the allow-list. The URL is
accepted when Python's `re.match` of that pattern succeeds on the path. The
`anything` sentinel accepts every path without running its pattern. A
supported link is then posted to the Songwhip API. The API answers 400 when it
knows nothing. `get_meta` then returns `None`; for any status above 400 it
raises through `raise_for_status`, and otherwise it returns the JSON document
that the handler turns into a reply.

The model has four modules:

- `Regex` gives the part of Python's `re` that the path patterns use, with
  `re.match` semantics: a pattern only has to match some prefix of the path.
- `Patterns` writes each host's path test as a plain predicate. It
  transcribes every path pattern of `songwhip.py` as a `Regex.Re` value and proves
  the two agree on every path.
- `Classifier` models `allowed_domains` and `check_url`.
- `Handler` models `get_meta`, the command and the passive scan. The HTTP
  service is a function `fetch` from request body to response. Marking the
  message read and replying are recorded as a sequence of actions, followed by
  the exception the handler raises, if any. The passive scan appears twice:
  - as the recursive function `Scan`;
  - as the method `HandleMessage`, whose loop skips, continues and stops as
    the source's `for` loop does.

  `HandleMessage` is proved equal to `Scan`.

The Amazon special case compares the host's length with
`len("music.amazon.co.uk")` (songwhip.py:43), so any suffix of up to five
characters after `music.amazon.` qualifies, such as `de`, `co.uk` or
`abcde` (`Classifier.IsAmazonHost`, `Classifier.AmazonAlbumAccepted`).

## Model

| member | source | states |
|---|---|---|
| Regex.MatchExtends | songwhip.py:52 | `re.match` is anchored only at the start: a pattern that matches a path still matches it with anything appended |
| Patterns.PatternOf | songwhip.py:11-32 | only the `anything` sentinel's pattern is the bare `.+`; every other matcher, Amazon included, has a pattern of its own |
| Patterns.MatchesPathAgrees | songwhip.py:11-32 | for every matcher and path, the hand-written path test holds exactly when `re.match` of the transcribed pattern succeeds |
| Patterns.SpotifyAgrees | songwhip.py:11 | the Spotify pattern matches exactly the paths `/album/`, `/artist/` or `/track/` followed by a non-newline character |
| Patterns.AppleAgrees | songwhip.py:12 | the Apple pattern matches exactly: an optional two-lower-case-letter directory, `album/` or `artist/`, a name of one or more characters, `/`, an optional `id`, and a digit |
| Patterns.TidalAgrees | songwhip.py:13 | the Tidal pattern matches exactly: an optional `browse/`, then `artist/`, `album/` or `track/` and a digit |
| Patterns.YandexAgrees | songwhip.py:14 | the Yandex pattern matches exactly: `artist/` or `album/`, an optional `<digits>/track/`, then a digit and one more character other than `/`, `?`, `#` |
| Patterns.AmazonAgrees | songwhip.py:15 | `/albums/.+` matches exactly the paths `/albums/` followed by a non-newline character |
| Patterns.AnyRestAgrees | songwhip.py:16 | `.+` matches exactly the strings whose first character is not a newline, so never the empty string |
| Patterns.DeezerAgrees | songwhip.py:24 | the Deezer pattern's optional prefix is any two word characters, digits and `_` included, then a resource item as for Spotify |
| Patterns.GooglePlayAgrees | songwhip.py:25 | the Google Play pattern matches exactly `/music/`, a name, `/`, one of `B` `A` `T`, and a lower-case letter or digit |
| Patterns.YouTubeAgrees | songwhip.py:26 | `/watch` matches exactly the paths that start with `/watch` |
| Patterns.SoundCloudAgrees | songwhip.py:32 | `/\w+?/.+` matches exactly a slash, one or more word characters, a slash and a non-newline character |
| Patterns.PlaylistIsNoResource | songwhip.py:11 | `/playlist/abc` is not a Spotify resource path |
| Patterns.WatchPaths | songwhip.py:26 | `/watch` and `/watchlater` pass the YouTube test; `/results` does not |
| Patterns.YandexAlbumPaths | songwhip.py:14 | `/album/12` passes the Yandex test; `/album/1` fails, for want of a second character after the digit |
| Patterns.YandexTrackPath | songwhip.py:14 | `/album/1/track/23` passes the Yandex test through its `track/` branch |
| Patterns.DeezerWordPrefixPath | songwhip.py:24 | `/_1/album/x` passes the Deezer test |
| Patterns.AppleLocalePath | songwhip.py:12 | `/us/album/a/id1` passes the Apple test |
| Patterns.AmazonAlbumPath | songwhip.py:15 | `/albums/B000XYZ` passes the Amazon test |
| Patterns.SpotifyAlbumPath | songwhip.py:11 | `/album/x` passes the Spotify test |
| Patterns.SpotifyTrackPath | songwhip.py:11 | `/track/abc` passes the Spotify test |
| Classifier.StripWww | songwhip.py:41-42 | a host starting with `www.` loses exactly those four characters; any other host is kept as it is |
| Classifier.Route | songwhip.py:43-49 | a short `music.amazon.` host routes to Amazon; any other host routes exactly when it is a key of the allow-list, and to that key's pattern |
| Classifier.CheckUrl | songwhip.py:36-52 | an accepted URL has scheme `http` or `https` and a routed host; a URL whose host routes to the `anything` sentinel is accepted whatever its path |
| Classifier.CheckUrlIsReMatch | songwhip.py:36-52 | `check_url` accepts exactly when the scheme is `http` or `https`, the host routes to a pattern, and that pattern is the sentinel or `re.match` succeeds on the path |
| Classifier.NoKeyStartsWithWww | songwhip.py:18-33 | no allow-list key starts with `www.` |
| Classifier.NoKeyIsAmazon | songwhip.py:18-33 | no allow-list key starts with `music.amazon.` or maps to the Amazon pattern |
| Classifier.AnythingHosts | songwhip.py:18-33 | exactly `itun.es` and `youtu.be` map to the `anything` sentinel |
| Classifier.SchemeGate | songwhip.py:38-39 | a scheme other than `http` or `https` is rejected whatever the host and path |
| Classifier.WwwIgnored | songwhip.py:41-42 | prefixing `www.` to a host that does not itself start with `www.` never changes the verdict |
| Classifier.DoubleWwwRejected | songwhip.py:41-49 | only one `www.` is stripped: every host starting with `www.www.` is rejected |
| Classifier.AmazonShortHost | songwhip.py:43-44 | a `music.amazon.` host of at most 18 characters is decided by `/albums/.+` alone |
| Classifier.AmazonLongHostRejected | songwhip.py:43-49 | a longer `music.amazon.` host is rejected for every path |
| Classifier.AcceptedHostIsKnown | songwhip.py:43-49 | only allow-list hosts and short Amazon hosts are ever accepted |
| Classifier.AnythingAcceptsEveryPath | songwhip.py:50-51 | `itun.es` and `youtu.be` accept every path, the empty one included, although `.+` does not match the empty path |
| Classifier.AcceptedPathExtends | songwhip.py:52 | appending anything to an accepted URL's path keeps it accepted |
| Classifier.ListedHostDecides | songwhip.py:46-52 | an allow-list host is judged by its own pattern's path test |
| Classifier.ListedPathAccepted | songwhip.py:46-52 | an allow-list host whose pattern accepts the path, with an allowed scheme, is accepted |
| Classifier.ListedPathRejected | songwhip.py:46-52 | an allow-list host whose pattern refuses the path is rejected |
| Classifier.SpotifyAlbumAccepted | songwhip.py:19 | `https://open.spotify.com/album/x` is accepted |
| Classifier.SpotifyTrackAccepted | songwhip.py:19 | `https://open.spotify.com/track/abc` is accepted |
| Classifier.SpotifyWwwAccepted | songwhip.py:41-42 | `https://www.open.spotify.com/album/x` is accepted |
| Classifier.SpotifyPlaylistRejected | songwhip.py:19 | `https://open.spotify.com/playlist/abc` is rejected |
| Classifier.ItunesAccepted | songwhip.py:23 | every `https://itun.es` URL is accepted, whatever its path |
| Classifier.YouTubeWatchAccepted | songwhip.py:26 | `https://youtube.com/watch` and `https://youtube.com/watchlater` are accepted |
| Classifier.YouTubeResultsRejected | songwhip.py:26 | `https://youtube.com/results` is rejected |
| Classifier.AmazonAlbumAccepted | songwhip.py:43-44 | album URLs on `music.amazon.de` and `music.amazon.co.uk` are accepted |
| Classifier.AmazonLongSuffixRejected | songwhip.py:43-49 | an album URL on `music.amazon.reallylongcc` is rejected |
| Classifier.YandexTwoCharacters | songwhip.py:30-31 | `https://music.yandex.ru/album/12` is accepted and `https://music.yandex.ru/album/1` is rejected |
| Classifier.YandexTrackAccepted | songwhip.py:30 | `https://music.yandex.com/album/1/track/23` is accepted |
| Classifier.AppleAlbumAccepted | songwhip.py:21 | `https://itunes.apple.com/us/album/a/id1` is accepted |
| Classifier.DeezerWordPrefixAccepted | songwhip.py:24 | `http://deezer.com/_1/album/x` is accepted |
| Handler.GetMeta | songwhip.py:56-61 | status 400 means no metadata; any higher status raises with that status; any lower status yields the response's document |
| Handler.CommandNotUrl | songwhip.py:66-68 | an argument that is not a URL gets the "doesn't look like a URL" reply and nothing else, with no request |
| Handler.CommandUnsupported | songwhip.py:69-71 | a URL that `check_url` rejects gets the "supported music URL" reply and nothing else, with no request |
| Handler.CommandOneRequest | songwhip.py:72-73 | the command's outcome depends on the service only through its answer to one request, the one carrying the argument as typed |
| Handler.CommandNotFound | songwhip.py:72-76 | status 400, an empty document, or an object without `url`: mark read, then the not-found reply |
| Handler.CommandRepliesUrl | songwhip.py:72-77 | a document whose `url` is a string: mark read, then that string as the reply, unchanged |
| Handler.CommandHttpError | songwhip.py:56-73 | a status above 400: mark read, then the HTTP error leaves the handler, with no reply |
| Handler.CommandShape | songwhip.py:65-77 | every run either raises with no reply or ends with exactly one reply as its last action; it marks the message read exactly when the argument passes both gates |
| Handler.OnCommand | songwhip.py:65-77 | the command always acts; its first action is a mark-read exactly when the argument passes both gates, and an exception comes only after that mark-read, with no reply |
| Handler.Examine | songwhip.py:84-92 | only `check_url` decides whether a candidate is requested; a resolved candidate is answered with a reply; an HTTP error that escapes has a status above 400 |
| Handler.ExamineSkipsUnsuccessful | songwhip.py:86-88 | a supported candidate answered by 400, by an empty document, or by an object whose `status` is not `"success"` is skipped after its mark-read |
| Handler.ExamineSkipsPathless | songwhip.py:89-91 | a successful document whose `data.item.path` is missing or falsy is skipped; a missing `data` or `item` counts as an empty object |
| Handler.ExamineRaisesHttpError | songwhip.py:56-60 | a supported candidate answered by a status above 400 raises that HTTP error |
| Handler.ExamineResolvesExactly | songwhip.py:84-92 | a candidate is answered exactly when `check_url` accepts it and the service returns a successful object with a truthy `data.item.path`, and the answer is the link for that path |
| Handler.ExamineCrashesExactly | songwhip.py:84-89 | a candidate raises exactly on a status above 400, or when `.get` meets a truthy document, a `data` or an `item` that is not an object |
| Handler.Visit | songwhip.py:84-93 | the loop body, run test by test with early exits as in the source, reaches the verdict `Examine` specifies, so the `Examine` lemmas hold of it |
| Handler.Scan | songwhip.py:83-93 | the scan takes at most one action more than there are candidates; an exception comes only after mark-reads, never after a reply |
| Handler.OnMessage | songwhip.py:80-93 | whatever the message and the service, the handler replies at most once, a reply is its last action, and it takes at most one action more than there are URLs |
| Handler.HandleMessage | songwhip.py:80-93 | the handler with its loop produces exactly the outcome `OnMessage` specifies |
| Handler.Reads | songwhip.py:84-85 | the mark-reads of the skipped candidates are only mark-reads, at most one per candidate |
| Handler.ScanNoStop | songwhip.py:83-91 | when no candidate resolves or raises: one mark-read per candidate that passes `check_url`, no reply, no exception |
| Handler.ScanUpTo | songwhip.py:83-93 | when candidate k is the first to resolve or raise, the scan is the mark-reads of the candidates before it followed by what k leads to |
| Handler.ScanStopsAt | songwhip.py:83-93 | the first candidate to resolve gives the only reply, after the earlier mark-reads and its own; the first to raise ends the handler after its mark-read |
| Handler.ScanIgnoresLater | songwhip.py:92-93 | once a candidate resolves or raises, adding candidates after it changes nothing: they are never examined |
| Handler.ScanAtMostOneReply | songwhip.py:83-93 | the passive handler replies at most once, and a reply is its last action |
| Handler.ScanAllUnsupported | songwhip.py:83-84 | if `check_url` rejects every URL in a message, nothing happens and no request is made |
| Handler.MessageIgnored | songwhip.py:81-82 | a non-text message, or one whose body starts with `!`, leads to no action |
| Handler.TextScanned | songwhip.py:81-83 | any other text message, the empty one included, is scanned |
| Handler.SuccessResolves | songwhip.py:86-92 | a supported link whose document reports `success` and has a non-empty string `data.item.path` resolves to `https://songwhip.com/` followed by that path, whatever other fields the document holds |
| Handler.SpotifyTrackResolved | songwhip.py:84-92 | the worked Spotify track candidate resolves to `https://songwhip.com/track/1a2b3c-some-song` |
| Handler.SpotifyTrackLinked | songwhip.py:80-93 | a chat message holding a Spotify track link is marked read and answered with its Songwhip page |
| Handler.ItunesCommandAnswered | songwhip.py:65-77 | `!songwhip` on an `itun.es` link is marked read and answered with the document's `url` |
| Handler.ServerErrorRaised | songwhip.py:58-60 | a 500 answer to the command is raised after the mark-read, not turned into a reply |

## Left out

- URL parsing by `yarl.URL` (songwhip.py:37) is not modelled. A URL arrives already split into scheme, host and path. Lower-casing, IDNA, percent-decoding and a missing host are therefore not captured.
- `url_pattern` (songwhip.py:10) is not modelled as a regular expression. Its `fullmatch` in the command is the parameter `looksLikeUrl`. Its `findall` in the passive handler is the parameter `extract`, which also parses each found URL.
- The command receives both the raw argument and its parsed parts. That the parts come from the argument is assumed by the caller, not checked.
- The HTTP request, `aiohttp`, the event loop and network failures other than an HTTP status are left out. The service is the parameter `fetch`.
- The service `fetch` is a function of the request body, so the model assumes it answers the same request the same way every time. In the source, a message holding the same supported link twice makes two separate requests (songwhip.py:84-86), which could be answered differently.
- JSON decoding is left out, along with undecodable bodies and floating-point numbers. JSON numbers are integers.
- The maubot and mautrix plumbing is left out: command registration, the `song` alias, event dispatch and the effect of `reply` and `mark_read`. They are recorded as actions.
- How a reply renders a value that is not a string is left out. A non-string `url` is recorded as `ReplyValue`, and a non-string `path` as `ReplyLink`; the text `str()` would produce is not modelled.
- `\d` and `\w` are modelled in their ASCII meaning. Python's Unicode classes also accept other scripts' digits and letters.
- Classifier.CheckUrl: its own contract states only the necessary conditions and the sentinel case. The full `re.match` equivalence is the lemma `Classifier.CheckUrlIsReMatch`, kept separate so that the handlers' proofs do not unfold the regular expressions.
- Handler.Scan: its own contract states only the bound on the number of actions and that an exception follows only mark-reads. The promises that it replies at most once and stops at the first candidate that resolves or raises are the lemmas `Handler.ScanAtMostOneReply` and `Handler.ScanStopsAt`. They are kept separate for the same reason as for `Classifier.CheckUrl`: with them in its contract, the proof of `Handler.HandleMessage` runs out of resources.
