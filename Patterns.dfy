/** The per-host path patterns of the allow-list (songwhip.py:11-16, 24-32).
    Each pattern appears twice: as a hand-written predicate over the path,
    which the classifier uses, and as a literal transcription of the Python
    regular expression into `Regex.Re`.  The lemmas of this module prove that
    the two agree on every path, so the classifier answers exactly what
    `pattern.match(path)` answers. */
module Patterns {
  import opened Regex

  /** The patterns of the allow-list, one per distinct regular expression. */
  datatype Matcher =
    | Spotify      // songwhip.py:11
    | Apple        // songwhip.py:12
    | Tidal        // songwhip.py:13
    | Yandex       // songwhip.py:14
    | Amazon       // songwhip.py:15
    | Anything     // songwhip.py:16
    | Deezer       // songwhip.py:24
    | GooglePlay   // songwhip.py:25
    | YouTube      // songwhip.py:26
    | SoundCloud   // songwhip.py:32

  // ---------------------------------------------------------------------------
  // Hand-written path predicates
  // ---------------------------------------------------------------------------

  /** `.+` closing a pattern: one character that is not a newline. */
  predicate HasLineChar(s: string) { |s| > 0 && s[0] != '\n' }

  /** `\d+` closing a pattern: one digit. */
  predicate StartsWithDigit(s: string) { |s| > 0 && IsDigit(s[0]) }

  predicate NoNewline(t: string) { forall i :: 0 <= i < |t| ==> t[i] != '\n' }
  predicate AllDigits(t: string) { forall i :: 0 <= i < |t| ==> IsDigit(t[i]) }
  predicate AllWord(t: string) { forall i :: 0 <= i < |t| ==> IsWord(t[i]) }

  /** `(?:album|artist|track)/(?:.+)` */
  predicate ResourceItem(s: string) {
    || ("album/" <= s && HasLineChar(s[6..]))
    || ("artist/" <= s && HasLineChar(s[7..]))
    || ("track/" <= s && HasLineChar(s[6..]))
  }

  /** Spotify: `/(?:album|artist|track)/(?:.+)` */
  predicate SpotifyPath(p: string) {
    "/" <= p && ResourceItem(p[1..])
  }

  /** Deezer: `/(?:\w{2}/)?(?:album|artist|track)/(?:.+)`; the optional prefix is
      any two word characters, digits and `_` included. */
  predicate DeezerPath(p: string) {
    "/" <= p &&
    (ResourceItem(p[1..]) ||
     (|p| >= 4 && IsWord(p[1]) && IsWord(p[2]) && p[3] == '/' && ResourceItem(p[4..])))
  }

  /** `(?:id)?(?:\d+)`: a digit, possibly after `id`. */
  predicate IdNumber(s: string) {
    StartsWithDigit(s) || ("id" <= s && StartsWithDigit(s[2..]))
  }

  /** `.+?/(?:id)?(?:\d+)`: a name of at least one character (slashes allowed,
      newlines not), then a slash and an id number. */
  predicate NameThenId(s: string) {
    exists j :: 0 < j < |s| && s[j] == '/' && NoNewline(s[..j]) && IdNumber(s[j + 1..])
  }

  /** `(?:album|artist)/.+?/(?:id)?(?:\d+)` */
  predicate AppleItem(s: string) {
    ("album/" <= s && NameThenId(s[6..])) || ("artist/" <= s && NameThenId(s[7..]))
  }

  /** iTunes and Apple Music: `/(?:[a-z]{2}/)?(?:album|artist)/.+?/(?:id)?(?:\d+)` */
  predicate ApplePath(p: string) {
    "/" <= p &&
    (AppleItem(p[1..]) ||
     (|p| >= 4 && IsLower(p[1]) && IsLower(p[2]) && p[3] == '/' && AppleItem(p[4..])))
  }

  /** `.+/[BAT][a-z0-9]+`: a name, a slash, one of B, A, T and a lower-case letter or digit. */
  predicate NameThenCode(s: string) {
    exists j :: 0 < j && j + 2 < |s| && s[j] == '/' && NoNewline(s[..j]) &&
      s[j + 1] in "BAT" && (IsLower(s[j + 2]) || IsDigit(s[j + 2]))
  }

  /** Google Play Music: `/music/.+/[BAT][a-z0-9]+` */
  predicate GooglePlayPath(p: string) {
    "/music/" <= p && NameThenCode(p[7..])
  }

  /** YouTube: `/watch`, so every path that starts with it. */
  predicate YouTubePath(p: string) {
    "/watch" <= p
  }

  /** `(?:artist|album|track)/(?:\d+)` */
  predicate TidalItem(s: string) {
    || ("artist/" <= s && StartsWithDigit(s[7..]))
    || ("album/" <= s && StartsWithDigit(s[6..]))
    || ("track/" <= s && StartsWithDigit(s[6..]))
  }

  /** Tidal: `/(?:browse/)?(?:artist|album|track)/(?:\d+)` */
  predicate TidalPath(p: string) {
    "/" <= p && (TidalItem(p[1..]) || ("browse/" <= p[1..] && TidalItem(p[8..])))
  }

  /** `\d+[^/?#]+`: a digit and one more character other than `/`, `?` and `#`,
      so at least two characters. */
  predicate YandexTail(s: string) {
    |s| >= 2 && IsDigit(s[0]) && s[1] !in "/?#"
  }

  /** `(?:\d+/track/)?(\d+[^/?#]+)` */
  predicate YandexId(s: string) {
    YandexTail(s) ||
    exists j :: 0 < j && j + 7 <= |s| && AllDigits(s[..j]) && "/track/" <= s[j..] && YandexTail(s[j + 7..])
  }

  /** Yandex Music: `/(?:artist|album)/(?:\d+/track/)?(\d+[^/?#]+)` */
  predicate YandexPath(p: string) {
    "/" <= p && (("artist/" <= p[1..] && YandexId(p[8..])) || ("album/" <= p[1..] && YandexId(p[7..])))
  }

  /** `\w+?/.+`: a word, a slash and one more character that is not a newline. */
  predicate WordThenAny(s: string) {
    exists j :: 0 < j && j + 1 < |s| && AllWord(s[..j]) && s[j] == '/' && s[j + 1] != '\n'
  }

  /** SoundCloud: `/\w+?/.+` */
  predicate SoundCloudPath(p: string) {
    "/" <= p && WordThenAny(p[1..])
  }

  /** Amazon Music: `/albums/.+` */
  predicate AmazonPath(p: string) {
    "/albums/" <= p && HasLineChar(p[8..])
  }

  /** What `m.match(p)` answers, by the hand-written predicates.  For `Anything`
      (`.+`) that is a non-empty first line, though the classifier never asks. */
  predicate MatchesPath(m: Matcher, p: string) {
    match m
    case Spotify => SpotifyPath(p)
    case Apple => ApplePath(p)
    case Tidal => TidalPath(p)
    case Yandex => YandexPath(p)
    case Amazon => AmazonPath(p)
    case Anything => HasLineChar(p)
    case Deezer => DeezerPath(p)
    case GooglePlay => GooglePlayPath(p)
    case YouTube => YouTubePath(p)
    case SoundCloud => SoundCloudPath(p)
  }

  // ---------------------------------------------------------------------------
  // The regular expressions of songwhip.py, transcribed
  // ---------------------------------------------------------------------------

  /** `.+` at the end of a pattern */
  const AnyRest: Re := Cat(Many(AnyButNewline), Empty)
  /** `\d+` at the end of a pattern */
  const DigitRest: Re := Cat(Many(Digit), Empty)

  /** `(?:album|artist|track)/(?:.+)` */
  const ResourceItemRe: Re :=
    Cat(Alt(Lit("album"), Alt(Lit("artist"), Lit("track"))), Cat(Lit("/"), AnyRest))

  /** `(?:id)?(?:\d+)` */
  const IdNumberRe: Re := Cat(Opt(Lit("id")), DigitRest)
  /** `.+?/(?:id)?(?:\d+)` */
  const NameThenIdRe: Re := Cat(Many(AnyButNewline), Cat(Lit("/"), IdNumberRe))
  /** `(?:album|artist)/.+?/(?:id)?(?:\d+)` */
  const AppleItemRe: Re := Cat(Alt(Lit("album"), Lit("artist")), Cat(Lit("/"), NameThenIdRe))

  /** `(?:artist|album|track)/(?:\d+)` */
  const TidalItemRe: Re :=
    Cat(Alt(Lit("artist"), Alt(Lit("album"), Lit("track"))), Cat(Lit("/"), DigitRest))

  /** `\d+[^/?#]+` */
  const YandexTailRe: Re := Cat(Many(Digit), Cat(Many(NoneOf("/?#")), Empty))
  /** `(?:\d+/track/)?(\d+[^/?#]+)` */
  const YandexIdRe: Re := Cat(Opt(Cat(Many(Digit), Lit("/track/"))), YandexTailRe)

  /** `.+/[BAT][a-z0-9]+` */
  const NameThenCodeRe: Re :=
    Cat(Many(AnyButNewline), SlashCodeRe)

  /** `\w+?/.+` */
  const WordThenAnyRe: Re := Cat(Many(Word), Cat(Lit("/"), AnyRest))

  /** `(?:cc/)?` for a class of c: two characters of it and a slash, optionally. */
  function TwoCharDir(c: CharClass): Re {
    Opt(Cat(One(c), Cat(One(c), Lit("/"))))
  }

  /** The regular expression of each matcher, as songwhip.py:11-16, 24-26, 32
      compile it.  Only the `anything` sentinel is the bare `.+`, so the
      identity test `path_pattern is anything` picks out exactly that matcher. */
  function PatternOf(m: Matcher): (r: Re)
    ensures r == AnyRest <==> m == Anything
  {
    match m
    case Spotify => Cat(Lit("/"), ResourceItemRe)
    case Apple => Cat(Lit("/"), Cat(TwoCharDir(Lower), AppleItemRe))
    case Tidal => Cat(Lit("/"), Cat(Opt(Lit("browse/")), TidalItemRe))
    case Yandex => Cat(Lit("/"), Cat(Alt(Lit("artist"), Lit("album")), Cat(Lit("/"), YandexIdRe)))
    case Amazon => Cat(Lit("/albums/"), AnyRest)
    case Anything => AnyRest
    case Deezer => Cat(Lit("/"), Cat(TwoCharDir(Word), ResourceItemRe))
    case GooglePlay => Cat(Lit("/music/"), NameThenCodeRe)
    case YouTube => Cat(Lit("/watch"), Empty)
    case SoundCloud => Cat(Lit("/"), WordThenAnyRe)
  }

  // ---------------------------------------------------------------------------
  // The hand-written predicates answer what the regular expressions answer
  // ---------------------------------------------------------------------------

  /** A literal followed by a slash, as in `album/`. */
  lemma LitSlash(w: string, r: Re, s: string)
    ensures Match(Cat(Lit(w), Cat(Lit("/"), r)), s) <==>
            w + "/" <= s && Match(r, s[|w| + 1..])
  {
    MatchLit(w, Cat(Lit("/"), r), s);
    if w <= s {
      MatchLit("/", r, s[|w|..]);
    }
    if w <= s && |s| > |w| {
      assert s[|w|..][1..] == s[|w| + 1..];
      assert "/" <= s[|w|..] <==> |s| > |w| && s[|w|] == '/';
    }
  }

  lemma AnyRestAgrees(s: string)
    ensures Match(AnyRest, s) <==> HasLineChar(s)
  {
    MatchManyLast(AnyButNewline, s);
  }

  lemma DigitRestAgrees(s: string)
    ensures Match(DigitRest, s) <==> StartsWithDigit(s)
  {
    MatchManyLast(Digit, s);
  }

  lemma TwoCharDirAgrees(c: CharClass, r: Re, s: string)
    ensures Match(Cat(TwoCharDir(c), r), s) <==>
            Match(r, s) ||
            (|s| >= 3 && InClass(c, s[0]) && InClass(c, s[1]) && s[2] == '/' && Match(r, s[3..]))
  {
    MatchOpt(Cat(One(c), Cat(One(c), Lit("/"))), r, s);
    TwoCharSlash(c, r, s);
  }

  /** `cc/` without the `?`. */
  lemma TwoCharSlash(c: CharClass, r: Re, s: string)
    ensures Match(Cat(Cat(One(c), Cat(One(c), Lit("/"))), r), s) <==>
            |s| >= 3 && InClass(c, s[0]) && InClass(c, s[1]) && s[2] == '/' && Match(r, s[3..])
  {
    MatchAssoc(One(c), Cat(One(c), Lit("/")), r, s);
    MatchOne(c, Cat(Cat(One(c), Lit("/")), r), s);
    if |s| > 0 {
      var t := s[1..];
      OneCharSlash(c, r, t);
      if |t| >= 2 {
        assert t[0] == s[1] && t[1] == s[2] && t[2..] == s[3..];
      }
    }
  }

  /** `c/` followed by r. */
  lemma OneCharSlash(c: CharClass, r: Re, t: string)
    ensures Match(Cat(Cat(One(c), Lit("/")), r), t) <==>
            |t| >= 2 && InClass(c, t[0]) && t[1] == '/' && Match(r, t[2..])
  {
    MatchAssoc(One(c), Lit("/"), r, t);
    MatchOne(c, Cat(Lit("/"), r), t);
    if |t| > 0 {
      MatchLit("/", r, t[1..]);
      if |t| > 1 {
        assert t[1..][1..] == t[2..];
        assert "/" <= t[1..] <==> t[1] == '/';
      }
    }
  }

  lemma ResourceItemAgrees(s: string)
    ensures Match(ResourceItemRe, s) <==> ResourceItem(s)
  {
    var r := Cat(Lit("/"), AnyRest);
    MatchAlt(Lit("album"), Alt(Lit("artist"), Lit("track")), r, s);
    MatchAlt(Lit("artist"), Lit("track"), r, s);
    LitSlash("album", AnyRest, s);
    LitSlash("artist", AnyRest, s);
    LitSlash("track", AnyRest, s);
    if |s| >= 6 { AnyRestAgrees(s[6..]); }
    if |s| >= 7 { AnyRestAgrees(s[7..]); }
  }

  lemma SpotifyAgrees(p: string)
    ensures Match(PatternOf(Spotify), p) <==> SpotifyPath(p)
  {
    MatchLit("/", ResourceItemRe, p);
    if "/" <= p {
      ResourceItemAgrees(p[1..]);
    }
  }

  lemma DeezerAgrees(p: string)
    ensures Match(PatternOf(Deezer), p) <==> DeezerPath(p)
  {
    MatchLit("/", Cat(TwoCharDir(Word), ResourceItemRe), p);
    if "/" <= p {
      var s := p[1..];
      TwoCharDirAgrees(Word, ResourceItemRe, s);
      ResourceItemAgrees(s);
      if |s| >= 3 {
        ResourceItemAgrees(s[3..]);
        assert s[3..] == p[4..];
      }
    }
  }

  lemma IdNumberAgrees(s: string)
    ensures Match(IdNumberRe, s) <==> IdNumber(s)
  {
    MatchOpt(Lit("id"), DigitRest, s);
    MatchLit("id", DigitRest, s);
    DigitRestAgrees(s);
    if "id" <= s {
      DigitRestAgrees(s[2..]);
    }
  }

  lemma NameThenIdAgrees(s: string)
    ensures Match(NameThenIdRe, s) <==> NameThenId(s)
  {
    var r := Cat(Lit("/"), IdNumberRe);
    MatchMany(AnyButNewline, r, s);
    if Match(NameThenIdRe, s) {
      var j :| 0 < j <= |s| && AllIn(AnyButNewline, s[..j]) && Match(r, s[j..]);
      MatchLit("/", IdNumberRe, s[j..]);
      IdNumberAgrees(s[j..][1..]);
      assert s[j..][1..] == s[j + 1..];
      assert s[j] == '/' && NoNewline(s[..j]);
    }
    if NameThenId(s) {
      var j :| 0 < j < |s| && s[j] == '/' && NoNewline(s[..j]) && IdNumber(s[j + 1..]);
      MatchLit("/", IdNumberRe, s[j..]);
      IdNumberAgrees(s[j + 1..]);
      assert s[j..][1..] == s[j + 1..];
      assert AllIn(AnyButNewline, s[..j]);
    }
  }

  lemma AppleItemAgrees(s: string)
    ensures Match(AppleItemRe, s) <==> AppleItem(s)
  {
    MatchAlt(Lit("album"), Lit("artist"), Cat(Lit("/"), NameThenIdRe), s);
    LitSlash("album", NameThenIdRe, s);
    LitSlash("artist", NameThenIdRe, s);
    if |s| >= 6 { NameThenIdAgrees(s[6..]); }
    if |s| >= 7 { NameThenIdAgrees(s[7..]); }
  }

  lemma AppleAgrees(p: string)
    ensures Match(PatternOf(Apple), p) <==> ApplePath(p)
  {
    MatchLit("/", Cat(TwoCharDir(Lower), AppleItemRe), p);
    if "/" <= p {
      var s := p[1..];
      TwoCharDirAgrees(Lower, AppleItemRe, s);
      AppleItemAgrees(s);
      if |s| >= 3 {
        AppleItemAgrees(s[3..]);
        assert s[0] == p[1] && s[1] == p[2] && s[2] == p[3] && s[3..] == p[4..];
      }
    }
  }

  /** `/[BAT][a-z0-9]+` */
  const SlashCodeRe: Re := Cat(Lit("/"), Cat(One(OneOf("BAT")), Cat(Many(LowerOrDigit), Empty)))

  lemma SlashCodeAgrees(t: string)
    ensures Match(SlashCodeRe, t) <==>
            |t| >= 3 && t[0] == '/' && t[1] in "BAT" && (IsLower(t[2]) || IsDigit(t[2]))
  {
    var code := Cat(One(OneOf("BAT")), Cat(Many(LowerOrDigit), Empty));
    MatchLit("/", code, t);
    if "/" <= t {
      MatchOne(OneOf("BAT"), Cat(Many(LowerOrDigit), Empty), t[1..]);
      if |t| >= 2 {
        assert t[1..][1..] == t[2..];
        MatchManyLast(LowerOrDigit, t[2..]);
      }
    }
  }

  lemma NameThenCodeAgrees(s: string)
    ensures Match(NameThenCodeRe, s) <==> NameThenCode(s)
  {
    MatchMany(AnyButNewline, SlashCodeRe, s);
    if Match(NameThenCodeRe, s) {
      var j :| 0 < j <= |s| && AllIn(AnyButNewline, s[..j]) && Match(SlashCodeRe, s[j..]);
      SlashCodeAgrees(s[j..]);
      assert NoNewline(s[..j]);
    }
    if NameThenCode(s) {
      var j :| 0 < j && j + 2 < |s| && s[j] == '/' && NoNewline(s[..j]) &&
        s[j + 1] in "BAT" && (IsLower(s[j + 2]) || IsDigit(s[j + 2]));
      SlashCodeAgrees(s[j..]);
      assert AllIn(AnyButNewline, s[..j]);
    }
  }

  lemma GooglePlayAgrees(p: string)
    ensures Match(PatternOf(GooglePlay), p) <==> GooglePlayPath(p)
  {
    MatchLit("/music/", NameThenCodeRe, p);
    if "/music/" <= p { NameThenCodeAgrees(p[7..]); }
  }

  lemma YouTubeAgrees(p: string)
    ensures Match(PatternOf(YouTube), p) <==> YouTubePath(p)
  {
    MatchLit("/watch", Empty, p);
    if "/watch" <= p { MatchEmpty(p[6..]); }
  }

  lemma AmazonAgrees(p: string)
    ensures Match(PatternOf(Amazon), p) <==> AmazonPath(p)
  {
    MatchLit("/albums/", AnyRest, p);
    if "/albums/" <= p { AnyRestAgrees(p[8..]); }
  }

  lemma TidalItemAgrees(s: string)
    ensures Match(TidalItemRe, s) <==> TidalItem(s)
  {
    var r := Cat(Lit("/"), DigitRest);
    MatchAlt(Lit("artist"), Alt(Lit("album"), Lit("track")), r, s);
    MatchAlt(Lit("album"), Lit("track"), r, s);
    LitSlash("artist", DigitRest, s);
    LitSlash("album", DigitRest, s);
    LitSlash("track", DigitRest, s);
    if |s| >= 6 { DigitRestAgrees(s[6..]); }
    if |s| >= 7 { DigitRestAgrees(s[7..]); }
  }

  lemma TidalAgrees(p: string)
    ensures Match(PatternOf(Tidal), p) <==> TidalPath(p)
  {
    MatchLit("/", Cat(Opt(Lit("browse/")), TidalItemRe), p);
    if "/" <= p {
      var s := p[1..];
      MatchOpt(Lit("browse/"), TidalItemRe, s);
      MatchLit("browse/", TidalItemRe, s);
      TidalItemAgrees(s);
      if "browse/" <= s {
        TidalItemAgrees(s[7..]);
        assert s[7..] == p[8..];
      }
    }
  }

  lemma YandexTailAgrees(s: string)
    ensures Match(YandexTailRe, s) <==> YandexTail(s)
  {
    var r := Cat(Many(NoneOf("/?#")), Empty);
    MatchMany(Digit, r, s);
    if Match(YandexTailRe, s) {
      var j :| 0 < j <= |s| && AllIn(Digit, s[..j]) && Match(r, s[j..]);
      MatchManyLast(NoneOf("/?#"), s[j..]);
      assert s[..j][0] == s[0];
      if j > 1 {
        assert s[..j][1] == s[1];
      } else {
        assert s[j..][0] == s[1];
      }
    }
    if YandexTail(s) {
      MatchManyLast(NoneOf("/?#"), s[1..]);
      assert AllIn(Digit, s[..1]);
    }
  }

  lemma TrackThenTailAgrees(t: string)
    ensures Match(Cat(Lit("/track/"), YandexTailRe), t) <==> "/track/" <= t && YandexTail(t[7..])
  {
    MatchLit("/track/", YandexTailRe, t);
    if "/track/" <= t {
      YandexTailAgrees(t[7..]);
    }
  }

  lemma YandexIdAgrees(s: string)
    ensures Match(YandexIdRe, s) <==> YandexId(s)
  {
    var track := Cat(Many(Digit), Lit("/track/"));
    var r := Cat(Lit("/track/"), YandexTailRe);
    MatchOpt(track, YandexTailRe, s);
    YandexTailAgrees(s);
    MatchAssoc(Many(Digit), Lit("/track/"), YandexTailRe, s);
    MatchMany(Digit, r, s);
    if Match(Cat(track, YandexTailRe), s) {
      var j :| 0 < j <= |s| && AllIn(Digit, s[..j]) && Match(r, s[j..]);
      TrackThenTailAgrees(s[j..]);
      assert s[j..][7..] == s[j + 7..];
      assert AllDigits(s[..j]);
    }
    if !YandexTail(s) && YandexId(s) {
      var j :| 0 < j && j + 7 <= |s| && AllDigits(s[..j]) && "/track/" <= s[j..] && YandexTail(s[j + 7..]);
      TrackThenTailAgrees(s[j..]);
      assert s[j..][7..] == s[j + 7..];
      assert AllIn(Digit, s[..j]);
    }
  }

  lemma YandexAgrees(p: string)
    ensures Match(PatternOf(Yandex), p) <==> YandexPath(p)
  {
    MatchLit("/", Cat(Alt(Lit("artist"), Lit("album")), Cat(Lit("/"), YandexIdRe)), p);
    if "/" <= p {
      YandexItemAgrees(p[1..]);
      if |p| >= 7 { assert p[1..][6..] == p[7..]; }
      if |p| >= 8 { assert p[1..][7..] == p[8..]; }
    }
  }

  /** `(?:artist|album)/(?:\d+/track/)?(\d+[^/?#]+)` */
  lemma YandexItemAgrees(s: string)
    ensures Match(Cat(Alt(Lit("artist"), Lit("album")), Cat(Lit("/"), YandexIdRe)), s) <==>
      ("artist/" <= s && YandexId(s[7..])) || ("album/" <= s && YandexId(s[6..]))
  {
    MatchAlt(Lit("artist"), Lit("album"), Cat(Lit("/"), YandexIdRe), s);
    LitSlash("artist", YandexIdRe, s);
    LitSlash("album", YandexIdRe, s);
    if |s| >= 6 { YandexIdAgrees(s[6..]); }
    if |s| >= 7 { YandexIdAgrees(s[7..]); }
  }

  lemma SlashAnyAgrees(t: string)
    ensures Match(Cat(Lit("/"), AnyRest), t) <==> |t| >= 2 && t[0] == '/' && t[1] != '\n'
  {
    MatchLit("/", AnyRest, t);
    if "/" <= t {
      AnyRestAgrees(t[1..]);
    }
  }

  lemma WordThenAnyAgrees(s: string)
    ensures Match(WordThenAnyRe, s) <==> WordThenAny(s)
  {
    var r := Cat(Lit("/"), AnyRest);
    MatchMany(Word, r, s);
    if Match(WordThenAnyRe, s) {
      var j :| 0 < j <= |s| && AllIn(Word, s[..j]) && Match(r, s[j..]);
      SlashAnyAgrees(s[j..]);
      assert AllWord(s[..j]);
    }
    if WordThenAny(s) {
      var j :| 0 < j && j + 1 < |s| && AllWord(s[..j]) && s[j] == '/' && s[j + 1] != '\n';
      SlashAnyAgrees(s[j..]);
      assert AllIn(Word, s[..j]);
    }
  }

  lemma SoundCloudAgrees(p: string)
    ensures Match(PatternOf(SoundCloud), p) <==> SoundCloudPath(p)
  {
    MatchLit("/", WordThenAnyRe, p);
    if "/" <= p { WordThenAnyAgrees(p[1..]); }
  }

  /** The hand-written predicate of every matcher accepts exactly the paths
      that Python's `re.match` with its regular expression accepts. */
  lemma MatchesPathAgrees(m: Matcher, p: string)
    ensures MatchesPath(m, p) <==> Match(PatternOf(m), p)
  {
    match m
    case Spotify => SpotifyAgrees(p);
    case Apple => AppleAgrees(p);
    case Tidal => TidalAgrees(p);
    case Yandex => YandexAgrees(p);
    case Amazon => AmazonAgrees(p);
    case Anything => AnyRestAgrees(p);
    case Deezer => DeezerAgrees(p);
    case GooglePlay => GooglePlayAgrees(p);
    case YouTube => YouTubeAgrees(p);
    case SoundCloud => SoundCloudAgrees(p);
  }

  // ---------------------------------------------------------------------------
  // Paths the worked examples of module Classifier use
  // ---------------------------------------------------------------------------

  lemma SpotifyAlbumPath()
    ensures SpotifyPath("/album/x")
  {
    assert "/album/x"[1..] == "album/x";
  }

  lemma SpotifyTrackPath()
    ensures SpotifyPath("/track/abc")
  {
    assert "/track/abc"[1..] == "track/abc";
  }

  lemma WatchPaths()
    ensures YouTubePath("/watch") && YouTubePath("/watchlater")
    ensures !YouTubePath("/results")
  {
    assert "/results"[1] != "/watch"[1];
  }

  lemma AmazonAlbumPath()
    ensures AmazonPath("/albums/B000XYZ")
  {
    assert "/albums/B000XYZ"[8..] == "B000XYZ";
  }

  lemma YandexAlbumPaths()
    ensures YandexPath("/album/12")
    ensures !YandexPath("/album/1")
  {
    assert "/album/12"[1..] == "album/12" && "/album/12"[7..] == "12";
    assert YandexTail("12");
    assert "/album/1"[1..] == "album/1" && "/album/1"[7..] == "1";
    assert "album/1"[1] != "artist/"[1];
  }

  lemma DeezerWordPrefixPath()
    ensures DeezerPath("/_1/album/x")
  {
    var q := "/_1/album/x";
    assert q[4..] == "album/x" && q[4..][6..] == "x";
  }

  lemma PlaylistIsNoResource()
    ensures !SpotifyPath("/playlist/abc")
  {
    var t := "/playlist/abc"[1..];
    assert t == "playlist/abc";
    assert t[0] == 'p';
  }

  lemma YandexTrackPath()
    ensures YandexPath("/album/1/track/23")
  {
    var id := "1/track/23";
    assert "/album/1/track/23"[1..] == "album/" + id && "/album/1/track/23"[7..] == id;
    assert id[1..] == "/track/23" && id[8..] == "23";
    assert YandexTail(id[8..]);
    assert AllDigits(id[..1]);
    assert YandexId(id);
  }

  lemma AppleLocalePath()
    ensures ApplePath("/us/album/a/id1")
  {
    var p := "/us/album/a/id1";
    assert p[4..] == "album/a/id1";
    AppleAlbumItem();
    LocaleThenItem(p);
  }

  /** A two-letter locale directory in front of an Apple item. */
  lemma LocaleThenItem(p: string)
    requires |p| >= 4 && p[0] == '/' && IsLower(p[1]) && IsLower(p[2]) && p[3] == '/'
    requires AppleItem(p[4..])
    ensures ApplePath(p)
  {
  }

  lemma AppleAlbumItem()
    ensures AppleItem("album/a/id1")
  {
    var s := "album/a/id1";
    assert s[6..] == "a/id1";
    AppleIdName();
  }

  lemma AppleIdName()
    ensures NameThenId("a/id1")
  {
    var name := "a/id1";
    assert name[2..] == "id1" && name[2..][2..] == "1";
    assert IdNumber(name[2..]);
    assert name[1] == '/' && NoNewline(name[..1]);
  }
}
