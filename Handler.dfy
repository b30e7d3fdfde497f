/** The decision logic of the bot (songwhip.py:56-93): `get_meta`, the
    `songwhip` command and the passive scan of room messages.  The metadata
    API is an oracle `fetch` from request body to response; marking the
    message read and replying are recorded as actions. */
module Handler {
  import opened Classifier

  /** A decoded JSON document.  Numbers are integers. */
  datatype Json =
    | JNull
    | JBool(b: bool)
    | JNum(n: int)
    | JStr(s: string)
    | JList(items: seq<Json>)
    | JObject(fields: map<string, Json>)

  /** Python's truth value of the decoded document. */
  predicate Truthy(j: Json) {
    match j
    case JNull => false
    case JBool(b) => b
    case JNum(n) => n != 0
    case JStr(s) => s != ""
    case JList(items) => items != []
    case JObject(fields) => fields != map[]
  }

  /** What the metadata API answers: an HTTP status and the decoded body. */
  datatype Response = Response(status: int, body: Json)

  /** The outcome of `get_meta`: `None`, the error `raise_for_status` raises, or the document. */
  datatype Meta = NotFound | Failure(status: int) | Ok(doc: Json)

  /** The exceptions that leave a handler. */
  datatype Error =
    | HttpError(status: int)  // raise_for_status
    | TypeError               // `in` or `[]` on a document that is not an object
    | AttributeError          // `.get` on a document or field that is not an object

  /** What a handler does to the room. */
  datatype Action =
    | MarkRead
    | Reply(text: string)
    | ReplyValue(value: Json)   // reply called with a JSON value that is not a string
    | ReplyLink(path: Json)     // the link reply for a path that is not a string

  /** The actions taken, in order, and the exception raised after them, if any. */
  datatype Outcome = Outcome(actions: seq<Action>, raised: Option<Error>)

  function Finished(actions: seq<Action>): Outcome { Outcome(actions, None) }
  function Raised(actions: seq<Action>, e: Error): Outcome { Outcome(actions, Some(e)) }

  /** The actions `before` were taken, then `o` happened. */
  function Prefixed(before: seq<Action>, o: Outcome): Outcome {
    Outcome(before + o.actions, o.raised)
  }

  const ApiEndpoint: string := "https://songwhip.com/api/songwhip/create"
  const SongwhipSite: string := "https://songwhip.com/"
  const NotUrlText: string := "That doesn't look like a URL \U{1F9D0}"
  const UnsupportedText: string := "That doesn't look like a supported music URL \U{1F914}"
  const NotFoundText: string := "Didn't find Songwhip metadata for that URL \U{1F63F}"

  /** The body `get_meta` posts to the endpoint. */
  function RequestBody(url: string): Json {
    JObject(map["country" := JStr("N/A"), "url" := JStr(url)])
  }

  /** `get_meta` without the network: status 400 means no metadata, any other
      status of 400 or more raises (as aiohttp's `raise_for_status` does), and
      every other response yields its document. */
  function GetMeta(r: Response): (m: Meta)
    ensures m == NotFound <==> r.status == 400
    ensures m.Failure? <==> r.status > 400
    ensures m.Failure? ==> m.status == r.status
    ensures m.Ok? <==> r.status < 400
    ensures m.Ok? ==> m.doc == r.body
  {
    if r.status == 400 then NotFound
    else if r.status >= 400 then Failure(r.status)
    else Ok(r.body)
  }

  /** Python's `w in s` on two strings. */
  predicate IsSubstring(w: string, s: string) {
    exists i :: 0 <= i <= |s| && w <= s[i..]
  }

  predicate IsReply(a: Action) {
    a.Reply? || a.ReplyValue? || a.ReplyLink?
  }

  // ---------------------------------------------------------------------------
  // Command mode: `!songwhip <url>`, alias `!song`
  // ---------------------------------------------------------------------------

  /** `evt.reply(meta["url"])`: a string is sent as the reply text. */
  function ReplyWith(v: Json): Action {
    if v.JStr? then Reply(v.s) else ReplyValue(v)
  }

  /** `on_command`.  `arg` is the raw argument, `url` what `yarl.URL(arg)`
      gives, `looksLikeUrl` whether `url_pattern` matches the whole argument.
      The command always does something; it starts by marking the message
      read exactly when the argument passes both gates, and an exception
      leaves it only after that mark-read and before any reply. */
  function OnCommand(arg: string, url: Url, looksLikeUrl: string -> bool, fetch: Json -> Response): (o: Outcome)
    ensures o.actions != []
    ensures o.actions[0] == MarkRead <==> looksLikeUrl(arg) && CheckUrl(url)
    ensures o.raised.Some? ==> o.actions == [MarkRead]
  {
    if !looksLikeUrl(arg) then Finished([Reply(NotUrlText)])
    else if !CheckUrl(url) then Finished([Reply(UnsupportedText)])
    else
      Prefixed([MarkRead],
        match GetMeta(fetch(RequestBody(arg)))
        case NotFound => Finished([Reply(NotFoundText)])
        case Failure(status) => Raised([], HttpError(status))
        case Ok(doc) =>
          if !Truthy(doc) then Finished([Reply(NotFoundText)])
          else
            match doc
            case JObject(fields) =>
              if "url" in fields then Finished([ReplyWith(fields["url"])])
              else Finished([Reply(NotFoundText)])
            case JList(items) =>
              // `"url" in meta` holds, but `meta["url"]` indexes a list by a string
              if JStr("url") in items then Raised([], TypeError)
              else Finished([Reply(NotFoundText)])
            case JStr(s) =>
              if IsSubstring("url", s) then Raised([], TypeError)
              else Finished([Reply(NotFoundText)])
            case _ => Raised([], TypeError))
  }

  // ---------------------------------------------------------------------------
  // Passive mode: every text message
  // ---------------------------------------------------------------------------

  /** A room message: whether its msgtype is text, and its body. */
  datatype Message = Message(isText: bool, body: string)

  /** A URL found in a message body: its text and its parts. */
  datatype Candidate = Candidate(text: string, url: Url)

  /** What one candidate leads to in `on_message`. */
  datatype Step =
    | Rejected           // check_url says no: nothing happens
    | Unresolved         // marked read, no usable metadata: go on with the next
    | Resolved(reply: Action)  // marked read, replied, stop
    | Crashed(error: Error)    // marked read, then an exception

  predicate Stops(s: Step) { s.Resolved? || s.Crashed? }

  /** The link reply `f"https://songwhip.com/{path}"`. */
  function LinkReply(path: Json): Action {
    if path.JStr? then Reply(SongwhipSite + path.s) else ReplyLink(path)
  }

  /** `dict.get(key, {})` on a JSON object. */
  function GetOrEmpty(fields: map<string, Json>, key: string): Json {
    if key in fields then fields[key] else JObject(map[])
  }

  /** `meta.get("status") == "success"` on an object. */
  predicate Succeeded(fields: map<string, Json>) {
    "status" in fields && fields["status"] == JStr("success")
  }

  /** The body of the `for` loop of `on_message`, for one candidate: only
      `check_url` decides whether the service is asked, a resolved candidate
      is answered with a reply, and the only HTTP error that escapes is one
      `raise_for_status` raises. */
  function Examine(c: Candidate, fetch: Json -> Response): (s: Step)
    ensures s.Rejected? <==> !CheckUrl(c.url)
    ensures s.Resolved? ==> IsReply(s.reply)
    ensures s.Crashed? && s.error.HttpError? ==> s.error.status > 400
  {
    if !CheckUrl(c.url) then Rejected
    else
      match GetMeta(fetch(RequestBody(c.text)))
      case NotFound => Unresolved
      case Failure(status) => Crashed(HttpError(status))
      case Ok(doc) =>
        if !Truthy(doc) then Unresolved
        else if !doc.JObject? then Crashed(AttributeError)
        else if !Succeeded(doc.fields) then Unresolved
        else
          var data := GetOrEmpty(doc.fields, "data");
          if !data.JObject? then Crashed(AttributeError)
          else
            var item := GetOrEmpty(data.fields, "item");
            if !item.JObject? then Crashed(AttributeError)
            else if !("path" in item.fields && Truthy(item.fields["path"])) then Unresolved
            else Resolved(LinkReply(item.fields["path"]))
  }

  /** What happens when a candidate led to `step` and the candidates after it
      lead to `rest`. */
  function Then(step: Step, rest: Outcome): Outcome {
    match step
    case Rejected => rest
    case Unresolved => Prefixed([MarkRead], rest)
    case Resolved(reply) => Finished([MarkRead, reply])
    case Crashed(e) => Raised([MarkRead], e)
  }

  /** The `for` loop of `on_message` over the candidates, as a recursion.
      Each candidate adds at most one mark-read, the scan adds at most one
      reply, and an exception comes only after mark-reads, never after a reply. */
  function Scan(cands: seq<Candidate>, fetch: Json -> Response): (o: Outcome)
    ensures |o.actions| <= |cands| + 1
    ensures o.raised.Some? ==> o.actions != [] && OnlyMarkReads(o.actions)
    decreases |cands|
  {
    if cands == [] then Finished([])
    else Then(Examine(cands[0], fetch), Scan(cands[1..], fetch))
  }

  /** One turn of the loop of `Scan`. */
  lemma ScanUnfold(cands: seq<Candidate>, i: nat, fetch: Json -> Response)
    requires i < |cands|
    ensures Scan(cands[i..], fetch) == Then(Examine(cands[i], fetch), Scan(cands[i + 1..], fetch))
  {
    assert cands[i..][0] == cands[i] && cands[i..][1..] == cands[i + 1..];
  }

  /** `on_message`; `extract` stands for `url_pattern.findall` followed by
      `yarl.URL`.  Whatever the message and the service, the handler replies
      at most once, and a reply is its last action. */
  function OnMessage(msg: Message, extract: string -> seq<Candidate>, fetch: Json -> Response): (o: Outcome)
    ensures AtMostOneReply(o)
    ensures |o.actions| <= |extract(msg.body)| + 1
  {
    if !msg.isText || "!" <= msg.body then Finished([])
    else
      ScanAtMostOneReply(extract(msg.body), fetch);
      Scan(extract(msg.body), fetch)
  }

  /** The body of the loop of `on_message` for one candidate, as the source
      runs it: the tests in order, leaving at the first that decides. */
  method Visit(c: Candidate, fetch: Json -> Response) returns (step: Step)
    ensures step == Examine(c, fetch)
  {
    if !CheckUrl(c.url) {
      return Rejected;
    }
    var meta := GetMeta(fetch(RequestBody(c.text)));
    if meta.Failure? {
      return Crashed(HttpError(meta.status));
    }
    if meta.NotFound? || !Truthy(meta.doc) {
      return Unresolved;
    }
    if !meta.doc.JObject? {
      return Crashed(AttributeError);
    }
    var fields := meta.doc.fields;
    if !Succeeded(fields) {
      return Unresolved;
    }
    var data := if "data" in fields then fields["data"] else JObject(map[]);
    if !data.JObject? {
      return Crashed(AttributeError);
    }
    var item := if "item" in data.fields then data.fields["item"] else JObject(map[]);
    if !item.JObject? {
      return Crashed(AttributeError);
    }
    if !("path" in item.fields && Truthy(item.fields["path"])) {
      return Unresolved;
    }
    var path := item.fields["path"];
    var reply := if path.JStr? then Reply(SongwhipSite + path.s) else ReplyLink(path);
    return Resolved(reply);
  }

  /** `on_message` as the source runs it: a loop over the candidates that
      skips, continues and stops at the first reply or exception. */
  method HandleMessage(msg: Message, extract: string -> seq<Candidate>, fetch: Json -> Response)
    returns (o: Outcome)
    ensures o == OnMessage(msg, extract, fetch)
  {
    if !msg.isText || "!" <= msg.body {
      return Finished([]);
    }
    var cands := extract(msg.body);
    var actions: seq<Action> := [];
    assert cands[0..] == cands;
    for i := 0 to |cands|
      invariant Scan(cands, fetch) == Prefixed(actions, Scan(cands[i..], fetch))
    {
      ScanUnfold(cands, i, fetch);
      var step := Visit(cands[i], fetch);
      if step.Rejected? {
        continue;
      }
      ghost var before := actions;
      actions := actions + [MarkRead];
      match step {
        case Unresolved =>
          ghost var rest := Scan(cands[i + 1..], fetch).actions;
          assert before + ([MarkRead] + rest) == actions + rest;
        case Resolved(reply) =>
          assert before + [MarkRead, reply] == actions + [reply];
          return Finished(actions + [reply]);
        case Crashed(e) =>
          return Raised(actions, e);
      }
    }
    assert cands[|cands|..] == [] && actions + [] == actions;
    return Finished(actions);
  }

  // ---------------------------------------------------------------------------
  // What the command promises
  // ---------------------------------------------------------------------------

  predicate OnlyMarkReads(actions: seq<Action>) {
    forall i :: 0 <= i < |actions| ==> actions[i] == MarkRead
  }

  /** No reply at all, or exactly one reply that ends a run without an exception. */
  predicate AtMostOneReply(o: Outcome) {
    OnlyMarkReads(o.actions) ||
    (o.raised == None && |o.actions| > 0 && IsReply(o.actions[|o.actions| - 1]) &&
     OnlyMarkReads(o.actions[..|o.actions| - 1]))
  }

  /** An argument that is not a URL gets its reply without a request. */
  lemma CommandNotUrl(arg: string, url: Url, looksLikeUrl: string -> bool, fetch: Json -> Response)
    requires !looksLikeUrl(arg)
    ensures OnCommand(arg, url, looksLikeUrl, fetch) == Finished([Reply(NotUrlText)])
  {
  }

  /** A URL `check_url` rejects gets its reply without a request. */
  lemma CommandUnsupported(arg: string, url: Url, looksLikeUrl: string -> bool, fetch: Json -> Response)
    requires looksLikeUrl(arg) && !CheckUrl(url)
    ensures OnCommand(arg, url, looksLikeUrl, fetch) == Finished([Reply(UnsupportedText)])
  {
  }

  /** The command makes at most one request, for the argument as typed: two
      services that answer that request alike lead to the same outcome. */
  lemma CommandOneRequest(arg: string, url: Url, looksLikeUrl: string -> bool, f: Json -> Response, g: Json -> Response)
    requires f(RequestBody(arg)) == g(RequestBody(arg))
    ensures OnCommand(arg, url, looksLikeUrl, f) == OnCommand(arg, url, looksLikeUrl, g)
  {
  }

  /** Status 400, an empty document and an object without `url` all get the
      not-found reply, after the message is marked read. */
  lemma CommandNotFound(arg: string, url: Url, looksLikeUrl: string -> bool, fetch: Json -> Response)
    requires looksLikeUrl(arg) && CheckUrl(url)
    requires var r := fetch(RequestBody(arg));
      r.status == 400 ||
      (r.status < 400 && (!Truthy(r.body) || (r.body.JObject? && "url" !in r.body.fields)))
    ensures OnCommand(arg, url, looksLikeUrl, fetch) == Finished([MarkRead, Reply(NotFoundText)])
  {
  }

  /** The `url` of the document is the reply, as it is. */
  lemma CommandRepliesUrl(arg: string, url: Url, looksLikeUrl: string -> bool, fetch: Json -> Response, link: string)
    requires looksLikeUrl(arg) && CheckUrl(url)
    requires var r := fetch(RequestBody(arg));
      r.status < 400 && r.body.JObject? && "url" in r.body.fields && r.body.fields["url"] == JStr(link)
    ensures OnCommand(arg, url, looksLikeUrl, fetch) == Finished([MarkRead, Reply(link)])
  {
  }

  /** Any other error status leaves the handler as an exception, after the
      message is marked read and without a reply. */
  lemma CommandHttpError(arg: string, url: Url, looksLikeUrl: string -> bool, fetch: Json -> Response)
    requires looksLikeUrl(arg) && CheckUrl(url) && fetch(RequestBody(arg)).status > 400
    ensures OnCommand(arg, url, looksLikeUrl, fetch) == Raised([MarkRead], HttpError(fetch(RequestBody(arg)).status))
  {
  }

  /** Every run of the command replies exactly once unless it raises, and
      marks the message read exactly when both gates let the argument through. */
  lemma CommandShape(arg: string, url: Url, looksLikeUrl: string -> bool, fetch: Json -> Response)
    ensures var o := OnCommand(arg, url, looksLikeUrl, fetch);
      AtMostOneReply(o) &&
      (o.raised == None ==> |o.actions| > 0 && IsReply(o.actions[|o.actions| - 1])) &&
      (MarkRead in o.actions <==> looksLikeUrl(arg) && CheckUrl(url))
  {
    var o := OnCommand(arg, url, looksLikeUrl, fetch);
    if looksLikeUrl(arg) && CheckUrl(url) {
      assert o.actions[0] == MarkRead;
      assert o.actions[..|o.actions| - 1] == [MarkRead] || o.raised.Some?;
    }
  }

  // ---------------------------------------------------------------------------
  // What the passive scan promises
  // ---------------------------------------------------------------------------

  /** A supported candidate is skipped, after its mark-read, when the service
      answers 400, answers an empty document, or answers an object whose
      `status` is not `"success"`. */
  lemma ExamineSkipsUnsuccessful(c: Candidate, fetch: Json -> Response)
    requires CheckUrl(c.url)
    requires var r := fetch(RequestBody(c.text));
      r.status == 400 ||
      (r.status < 400 && (!Truthy(r.body) || (r.body.JObject? && !Succeeded(r.body.fields))))
    ensures Examine(c, fetch) == Unresolved
  {
  }

  /** A successful document is skipped when `data.item.path` is missing or
      falsy; a missing `data` or `item` counts as an empty object. */
  lemma ExamineSkipsPathless(c: Candidate, fetch: Json -> Response)
    requires CheckUrl(c.url)
    requires var r := fetch(RequestBody(c.text));
      r.status < 400 && r.body.JObject? && Succeeded(r.body.fields) &&
      var data := GetOrEmpty(r.body.fields, "data");
      data.JObject? &&
      var item := GetOrEmpty(data.fields, "item");
      item.JObject? && !("path" in item.fields && Truthy(item.fields["path"]))
    ensures Examine(c, fetch) == Unresolved
  {
  }

  /** A status above 400 leaves the handler as that HTTP error. */
  lemma ExamineRaisesHttpError(c: Candidate, fetch: Json -> Response)
    requires CheckUrl(c.url) && fetch(RequestBody(c.text)).status > 400
    ensures Examine(c, fetch) == Crashed(HttpError(fetch(RequestBody(c.text)).status))
  {
  }

  /** A candidate is answered exactly when `check_url` accepts it and the
      service returns a successful object whose `data.item.path` is truthy;
      the answer is the link for that path. */
  lemma ExamineResolvesExactly(c: Candidate, fetch: Json -> Response)
    ensures var r := fetch(RequestBody(c.text));
      Examine(c, fetch).Resolved? <==>
        CheckUrl(c.url) && r.status < 400 && r.body.JObject? && Succeeded(r.body.fields) &&
        var data := GetOrEmpty(r.body.fields, "data");
        data.JObject? &&
        var item := GetOrEmpty(data.fields, "item");
        item.JObject? && "path" in item.fields && Truthy(item.fields["path"]) &&
        Examine(c, fetch).reply == LinkReply(item.fields["path"])
  {
  }

  /** A candidate raises exactly on a status above 400, or when `.get` meets a
      truthy document, a `data` or an `item` that is not an object. */
  lemma ExamineCrashesExactly(c: Candidate, fetch: Json -> Response)
    ensures var r := fetch(RequestBody(c.text));
      Examine(c, fetch).Crashed? <==>
        CheckUrl(c.url) &&
        (r.status > 400 ||
         (r.status < 400 && Truthy(r.body) &&
          (!r.body.JObject? ||
           (Succeeded(r.body.fields) &&
            var data := GetOrEmpty(r.body.fields, "data");
            !data.JObject? || !GetOrEmpty(data.fields, "item").JObject?))))
  {
  }

  /** One `mark_read` for each candidate that passes `check_url`. */
  function Reads(cands: seq<Candidate>, fetch: Json -> Response): (marks: seq<Action>)
    ensures OnlyMarkReads(marks) && |marks| <= |cands|
    decreases |cands|
  {
    if cands == [] then []
    else (if Examine(cands[0], fetch).Rejected? then [] else [MarkRead]) + Reads(cands[1..], fetch)
  }

  /** Candidate k is the first whose metadata ends the scan. */
  predicate FirstStop(cands: seq<Candidate>, fetch: Json -> Response, k: int) {
    0 <= k < |cands| && Stops(Examine(cands[k], fetch)) &&
    forall j :: 0 <= j < k ==> !Stops(Examine(cands[j], fetch))
  }

  /** When no candidate ends the scan: each supported one is marked read and
      nothing else happens. */
  lemma {:induction false} ScanNoStop(cands: seq<Candidate>, fetch: Json -> Response)
    requires forall j :: 0 <= j < |cands| ==> !Stops(Examine(cands[j], fetch))
    ensures Scan(cands, fetch) == Finished(Reads(cands, fetch))
    decreases |cands|
  {
    if cands != [] {
      assert !Stops(Examine(cands[0], fetch));
      assert forall j :: 0 <= j < |cands[1..]| ==> cands[1..][j] == cands[j + 1];
      ScanNoStop(cands[1..], fetch);
    }
  }

  /** A candidate that does not end the scan only adds its `mark_read`, if any. */
  lemma ThenGoesOn(step: Step, rest: Outcome)
    requires !Stops(step)
    ensures Then(step, rest) == Prefixed(if step.Rejected? then [] else [MarkRead], rest)
  {
    if step.Rejected? {
      assert [] + rest.actions == rest.actions;
    }
  }

  lemma PrefixedTwice(a: seq<Action>, b: seq<Action>, o: Outcome)
    ensures Prefixed(a, Prefixed(b, o)) == Prefixed(a + b, o)
  {
    assert a + (b + o.actions) == (a + b) + o.actions;
  }

  /** When candidate k is the first to end the scan, the scan is the
      `mark_read` of every supported candidate before it followed by what
      candidate k leads to. */
  lemma {:induction false} ScanUpTo(cands: seq<Candidate>, fetch: Json -> Response, k: int)
    requires FirstStop(cands, fetch, k)
    ensures Scan(cands, fetch) == Prefixed(Reads(cands[..k], fetch), Then(Examine(cands[k], fetch), Finished([])))
    decreases k
  {
    var last := Then(Examine(cands[k], fetch), Finished([]));
    if k == 0 {
      assert cands[..0] == [];
      assert [] + last.actions == last.actions;
    } else {
      var tail := cands[1..];
      var step := Examine(cands[0], fetch);
      assert !Stops(step);
      assert tail[k - 1] == cands[k];
      assert forall j :: 0 <= j < k - 1 ==> tail[j] == cands[j + 1];
      ScanUpTo(tail, fetch, k - 1);
      ThenGoesOn(step, Scan(tail, fetch));
      var head := if step.Rejected? then [] else [MarkRead];
      assert cands[..k][0] == cands[0] && cands[..k][1..] == tail[..k - 1];
      assert Reads(cands[..k], fetch) == head + Reads(tail[..k - 1], fetch);
      PrefixedTwice(head, Reads(tail[..k - 1], fetch), last);
    }
  }

  /** When candidate k is the first to end the scan: the supported candidates
      before it are marked read, then it is, then its reply or its exception
      ends the handler. */
  lemma ScanStopsAt(cands: seq<Candidate>, fetch: Json -> Response, k: int)
    requires FirstStop(cands, fetch, k)
    ensures Examine(cands[k], fetch).Resolved? ==>
      Scan(cands, fetch) == Finished(Reads(cands[..k], fetch) + [MarkRead, Examine(cands[k], fetch).reply])
    ensures Examine(cands[k], fetch).Crashed? ==>
      Scan(cands, fetch) == Raised(Reads(cands[..k], fetch) + [MarkRead], Examine(cands[k], fetch).error)
  {
    ScanUpTo(cands, fetch, k);
  }

  /** Once a candidate ends the scan, the candidates after it are never
      looked at: appending more changes nothing. */
  lemma ScanIgnoresLater(cands: seq<Candidate>, more: seq<Candidate>, fetch: Json -> Response, k: int)
    requires FirstStop(cands, fetch, k)
    ensures Scan(cands + more, fetch) == Scan(cands, fetch)
  {
    var all := cands + more;
    assert forall j :: 0 <= j <= k ==> all[j] == cands[j];
    assert FirstStop(all, fetch, k);
    assert all[..k] == cands[..k];
    ScanStopsAt(cands, fetch, k);
    ScanStopsAt(all, fetch, k);
  }

  /** Marks read, then one reply: the shape of a scan that found a link. */
  lemma ReplyAfterMarks(marks: seq<Action>, r: Action)
    requires OnlyMarkReads(marks) && IsReply(r)
    ensures AtMostOneReply(Finished(marks + [MarkRead, r]))
  {
    var acts := marks + [MarkRead, r];
    assert acts[..|acts| - 1] == marks + [MarkRead];
  }

  /** The scan replies at most once, and a reply is its last action. */
  lemma ScanAtMostOneReply(cands: seq<Candidate>, fetch: Json -> Response)
    ensures AtMostOneReply(Scan(cands, fetch))
  {
    if k :| FirstStop(cands, fetch, k) {
      StoppedScanReplies(cands, fetch, k);
    } else {
      forall j | 0 <= j < |cands|
        ensures !Stops(Examine(cands[j], fetch))
      {
        if Stops(Examine(cands[j], fetch)) {
          FirstStopExists(cands, fetch, j);
        }
      }
      ScanNoStop(cands, fetch);
    }
  }

  lemma StoppedScanReplies(cands: seq<Candidate>, fetch: Json -> Response, k: int)
    requires FirstStop(cands, fetch, k)
    ensures AtMostOneReply(Scan(cands, fetch))
  {
    ScanStopsAt(cands, fetch, k);
    var marks := Reads(cands[..k], fetch);
    var step := Examine(cands[k], fetch);
    if step.Resolved? {
      ReplyAfterMarks(marks, step.reply);
    } else {
      assert OnlyMarkReads(marks + [MarkRead]);
    }
  }

  /** If some candidate ends the scan, a first one does. */
  lemma {:induction false} FirstStopExists(cands: seq<Candidate>, fetch: Json -> Response, j: int)
    requires 0 <= j < |cands| && Stops(Examine(cands[j], fetch))
    ensures exists k :: FirstStop(cands, fetch, k)
    decreases j
  {
    if forall i :: 0 <= i < j ==> !Stops(Examine(cands[i], fetch)) {
      assert FirstStop(cands, fetch, j);
    } else {
      var i :| 0 <= i < j && Stops(Examine(cands[i], fetch));
      FirstStopExists(cands, fetch, i);
    }
  }

  /** A message whose URLs `check_url` all rejects leads to no action and no request. */
  lemma {:induction false} ScanAllUnsupported(cands: seq<Candidate>, fetch: Json -> Response)
    requires forall j :: 0 <= j < |cands| ==> !CheckUrl(cands[j].url)
    ensures Scan(cands, fetch) == Finished([])
    decreases |cands|
  {
    if cands != [] {
      assert forall j :: 0 <= j < |cands[1..]| ==> cands[1..][j] == cands[j + 1];
      ScanAllUnsupported(cands[1..], fetch);
    }
  }

  /** Notices, commands and other messages starting with `!` are ignored. */
  lemma MessageIgnored(msg: Message, extract: string -> seq<Candidate>, fetch: Json -> Response)
    requires !msg.isText || "!" <= msg.body
    ensures OnMessage(msg, extract, fetch) == Finished([])
  {
  }

  /** Any other text message is scanned. */
  lemma TextScanned(msg: Message, extract: string -> seq<Candidate>, fetch: Json -> Response)
    requires msg.isText && !("!" <= msg.body)
    ensures OnMessage(msg, extract, fetch) == Scan(extract(msg.body), fetch)
  {
  }

  // ---------------------------------------------------------------------------
  // Worked examples
  // ---------------------------------------------------------------------------

  /** A supported link whose document reports success with a non-empty string
      path resolves to the Songwhip page of that path, whatever else the
      document holds. */
  lemma SuccessResolves(c: Candidate, fetch: Json -> Response, path: string)
    requires CheckUrl(c.url) && path != ""
    requires var r := fetch(RequestBody(c.text));
      r.status < 400 && r.body.JObject? && Succeeded(r.body.fields) &&
      "data" in r.body.fields && r.body.fields["data"].JObject? &&
      "item" in r.body.fields["data"].fields && r.body.fields["data"].fields["item"].JObject? &&
      "path" in r.body.fields["data"].fields["item"].fields &&
      r.body.fields["data"].fields["item"].fields["path"] == JStr(path)
    ensures Examine(c, fetch) == Resolved(Reply(SongwhipSite + path))
  {
  }

  /** A document the service returns for a resolved track. */
  function TrackDoc(path: string): Json {
    JObject(map[
      "status" := JStr("success"),
      "data" := JObject(map["item" := JObject(map["path" := JStr(path)])])
    ])
  }

  /** A service that resolves every request to the same track. */
  function TrackService(request: Json): Response {
    Response(200, TrackDoc("track/1a2b3c-some-song"))
  }

  const SpotifyLink: string := "https://open.spotify.com/track/abc"
  const SpotifyCandidate: Candidate := Candidate(SpotifyLink, Url("https", "open.spotify.com", "/track/abc"))

  /** `findall` on the example message: the one Spotify link it holds. */
  function SpotifyLinkIn(body: string): seq<Candidate> {
    [SpotifyCandidate]
  }

  lemma SpotifyTrackResolved()
    ensures Examine(SpotifyCandidate, TrackService) == Resolved(Reply(SongwhipSite + "track/1a2b3c-some-song"))
  {
    SpotifyTrackAccepted();
    var doc := TrackDoc("track/1a2b3c-some-song");
    var data := doc.fields["data"];
    assert Succeeded(doc.fields) && "data" in doc.fields && data.JObject? && "item" in data.fields;
    SuccessResolves(SpotifyCandidate, TrackService, "track/1a2b3c-some-song");
  }

  /** The message of the example is a text message that is not a command. */
  lemma ListenMessageScanned(fetch: Json -> Response)
    ensures OnMessage(Message(true, "listen to " + SpotifyLink), SpotifyLinkIn, fetch) == Scan([SpotifyCandidate], fetch)
  {
    var msg := Message(true, "listen to " + SpotifyLink);
    assert msg.body[0] == 'l';
    TextScanned(msg, SpotifyLinkIn, fetch);
  }

  /** A Spotify track link in a chat message is answered with its Songwhip page. */
  lemma SpotifyTrackLinked()
    ensures OnMessage(Message(true, "listen to " + SpotifyLink), SpotifyLinkIn, TrackService)
      == Finished([MarkRead, Reply(SongwhipSite + "track/1a2b3c-some-song")])
  {
    ListenMessageScanned(TrackService);
    SpotifyTrackResolved();
    assert [SpotifyCandidate][1..] == [];
  }

  /** The command hands back the `url` of the document for a short link. */
  lemma ItunesCommandAnswered()
    ensures OnCommand("https://itun.es/us/abc", Url("https", "itun.es", "/us/abc"), _ => true,
      _ => Response(200, JObject(map["url" := JStr("https://songwhip.com/some-artist/some-album")])))
      == Finished([MarkRead, Reply("https://songwhip.com/some-artist/some-album")])
  {
    ItunesAccepted("/us/abc");
    var doc := JObject(map["url" := JStr("https://songwhip.com/some-artist/some-album")]);
    assert "url" in doc.fields && Truthy(doc);
  }

  /** A 500 from the service is not turned into a reply. */
  lemma ServerErrorRaised()
    ensures OnCommand("https://itun.es/us/abc", Url("https", "itun.es", "/us/abc"), _ => true,
      _ => Response(500, JNull))
      == Raised([MarkRead], HttpError(500))
  {
    ItunesAccepted("/us/abc");
  }
}
