/**
 * `_browse_internet(website=None, query=None, application="chrome")` of
 * `backend/jarvis_backend_v1.py`: the definition at line 529, which replaces
 * the earlier one of the same class. A website gets a scheme when it has
 * none; a query becomes a Google search URL, percent-encoded the way
 * `requests.utils.quote` (that is, `urllib.parse.quote` with `safe='/'`)
 * encodes it.
 */
module Browse {
  import opened Base
  import opened Text
  import opened Values
  import opened Host
  import opened Handlers

  // ---------------------------------------------------------------------------
  // Percent-encoding
  // ---------------------------------------------------------------------------

  /** The characters `quote` leaves alone: letters, digits, `_.-~`, and `/`. */
  predicate Unreserved(c: char)
  {
    ('A' <= c <= 'Z') || ('a' <= c <= 'z') || ('0' <= c <= '9') || c in "_.-~/"
  }

  predicate UpperHex(c: char)
  {
    ('0' <= c <= '9') || ('A' <= c <= 'F')
  }

  function HexUpper(d: nat): (c: char)
    requires d < 16
    ensures UpperHex(c)
  {
    if d < 10 then ('0' as int + d) as char else ('A' as int + d - 10) as char
  }

  /** The UTF-8 encoding of one character. */
  function Utf8(c: char): (bytes: seq<nat>)
    ensures 1 <= |bytes| <= 4 && forall i :: 0 <= i < |bytes| ==> bytes[i] < 256
  {
    var n := c as int;
    if n < 0x80 then [n]
    else if n < 0x800 then [0xC0 + n / 0x40, 0x80 + n % 0x40]
    else if n < 0x1_0000 then [0xE0 + n / 0x1000, 0x80 + (n / 0x40) % 0x40, 0x80 + n % 0x40]
    else [0xF0 + n / 0x4_0000, 0x80 + (n / 0x1000) % 0x40, 0x80 + (n / 0x40) % 0x40, 0x80 + n % 0x40]
  }

  function PercentBytes(bytes: seq<nat>): string
    requires forall i :: 0 <= i < |bytes| ==> bytes[i] < 256
  {
    if bytes == [] then ""
    else ['%', HexUpper(bytes[0] / 16), HexUpper(bytes[0] % 16)] + PercentBytes(bytes[1..])
  }

  function QuoteChar(c: char): string
  {
    if Unreserved(c) then [c] else PercentBytes(Utf8(c))
  }

  /** `requests.utils.quote(s)` */
  function Quote(s: string): string
  {
    if s == [] then "" else QuoteChar(s[0]) + Quote(s[1..])
  }

  /** A percent-encoded string holds only unreserved characters and `%XX` escapes. */
  predicate Encoded(t: string)
  {
    forall i :: 0 <= i < |t| ==> Unreserved(t[i]) || t[i] == '%' || UpperHex(t[i])
  }

  // ---------------------------------------------------------------------------
  // URLs
  // ---------------------------------------------------------------------------

  predicate HasScheme(url: string)
  {
    IsPrefix("http://", url) || IsPrefix("https://", url)
  }

  /** A website without `http://` or `https://` is visited over `https://`. */
  function NormalizeUrl(website: string): (r: string)
    ensures HasScheme(r)
    ensures HasScheme(website) <==> r == website
  {
    if HasScheme(website) then website
    else
      var u := "https://" + website;
      assert u[..8] == "https://";
      u
  }

  function GoogleUrl(query: string): string
  {
    "https://www.google.com/search?q=" + Quote(query)
  }

  /** The URL to open, or what building it raises: a non-string website has no `startswith`, a non-string query cannot be quoted. */
  function TargetUrl(website: Value, query: Value): Outcome<string>
  {
    if Truthy(website) then
      if website.Str? then Ok(NormalizeUrl(website.s)) else Raised(NoAttribute(website, "startswith"))
    else if query.Str? then Ok(GoogleUrl(query.s))
    else Raised("quote_from_bytes() expected bytes")
  }

  /** The lower-cased browser asked for, or none when it is empty or `default`. */
  function Requested(application: Value): Outcome<Option<string>>
  {
    if !Truthy(application) then Ok(None)
    else
      match LowerOf(application)
      case Raised(m) => Raised(m)
      case Ok(low) => Ok(if low == "default" then None else Some(low))
  }

  function OpenedReply(url: string, browser: string): Entries
  {
    [ ("message", Str("Opened " + url + " in " + browser)), ("browser", Str(browser)),
      ("url", Str(url)), ("status", Str("success")) ]
  }

  function FallbackError(m: string): Entries
  {
    [ ("error", Str("Failed to browse internet: " + m)),
      ("suggestion", Str("Please check if you have a web browser installed and try again.")) ]
  }

  /** The handler's `except` branch: one more try through `webbrowser.open`, whose own failure is reported. */
  function Fallback(h: Host, website: Value, query: Value): (r: Reply)
    requires Truthy(website) || Truthy(query)
    ensures r.effects == [] || (TargetUrl(website, query).Ok? && r.effects == [OpenUrl(TargetUrl(website, query).value)])
  {
    match TargetUrl(website, query)
    case Raised(m) => Reply(FallbackError(m), [])
    case Ok(url) =>
      match h.webOpen(url)
      case Raised(m) => Reply(FallbackError(m), [OpenUrl(url)])
      case Ok(_) =>
        if Truthy(website) then Reply(Message("Opened " + url + " using fallback method"), [OpenUrl(url)])
        else Reply(Message("Searching Google for: " + query.s), [OpenUrl(url)])
  }

  const AskTarget := "What would you like me to search for or which website would you like to visit?"
  const AskFallback := "I couldn't find a web browser on your system. Would you like me to try opening with the system default method?"

  /** `_browse_internet`: the requested browser first, then the system default. */
  function BrowseInternet(h: Host, website: Value, query: Value, application: Value): (r: Reply)
    ensures r.effects == [] || (|r.effects| == 1 && r.effects[0].OpenUrl?)
  {
    if !Truthy(website) && !Truthy(query) then
      Reply(Clarification(AskTarget), [])
    else if !h.browsersFound then
      Reply(Clarification(AskFallback), [])
    else
      match TargetUrl(website, query)
      case Raised(_) => Fallback(h, website, query)
      case Ok(url) =>
        match Requested(application)
        case Raised(_) => Fallback(h, website, query)
        case Ok(requested) => OpenTarget(h, url, requested)
  }

  /** Opening `url`: through the requested browser when it is found, else through `webbrowser.open`. */
  function OpenTarget(h: Host, url: string, requested: Option<string>): (r: Reply)
    ensures r.effects == [OpenUrl(url)]
  {
    var named := if requested.Some? then h.tryBrowsers(url, requested.value) else None;
    if named.Some? then Reply(OpenedReply(url, named.value), [OpenUrl(url)])
    else
      match h.webOpen(url)
      case Raised(m) => Reply(Error("Failed to open browser: " + m), [OpenUrl(url)])
      case Ok(success) =>
        if success then Reply(OpenedReply(url, "system default"), [OpenUrl(url)])
        else Reply(Error("Failed to open " + url + ". No browser could be used."), [OpenUrl(url)])
  }

  // ---------------------------------------------------------------------------
  // Properties
  // ---------------------------------------------------------------------------

  lemma {:induction false} PercentBytesEncoded(bytes: seq<nat>)
    requires forall i :: 0 <= i < |bytes| ==> bytes[i] < 256
    ensures Encoded(PercentBytes(bytes))
  {
    if bytes != [] {
      PercentBytesEncoded(bytes[1..]);
      var head := ['%', HexUpper(bytes[0] / 16), HexUpper(bytes[0] % 16)];
      assert forall i :: 0 <= i < |head| ==> head[i] == '%' || UpperHex(head[i]);
    }
  }

  /** Whatever the query, its quoted form holds only unreserved characters and `%XX` escapes. */
  lemma {:induction false} QuoteEncodes(s: string)
    ensures Encoded(Quote(s))
  {
    if s != [] {
      QuoteEncodes(s[1..]);
      if !Unreserved(s[0]) {
        PercentBytesEncoded(Utf8(s[0]));
      }
      var head := QuoteChar(s[0]);
      var rest := Quote(s[1..]);
      assert forall i :: |head| <= i < |head + rest| ==> (head + rest)[i] == rest[i - |head|];
    }
  }

  /** A query of unreserved characters only is used as it is. */
  lemma {:induction false} QuoteKeepsUnreserved(s: string)
    requires forall i :: 0 <= i < |s| ==> Unreserved(s[i])
    ensures Quote(s) == s
  {
    if s != [] {
      QuoteKeepsUnreserved(s[1..]);
      assert s == [s[0]] + s[1..];
    }
  }

  /** A blank becomes `%20`: the characters `quote` changes are replaced, not dropped. */
  lemma {:induction false} QuoteSpace()
    ensures Quote(" ") == "%20"
  {
    assert !Unreserved(' ');
    assert Utf8(' ') == [32];
    assert PercentBytes([32]) == "%20";
    assert Quote(" ") == QuoteChar(' ') + Quote("");
  }

  /** Normalising twice changes nothing. */
  lemma {:induction false} NormalizeUrlIdempotent(website: string)
    ensures NormalizeUrl(NormalizeUrl(website)) == NormalizeUrl(website)
  {
  }

  /**
   * Whatever the outcome, the only URL the handler opens or reports is the
   * normalised website or, without one, the Google search for the query.
   */
  lemma {:induction false} BrowseOpensTarget(h: Host, website: Value, query: Value, application: Value)
    ensures var r := BrowseInternet(h, website, query, application);
      forall e :: e in r.effects ==>
        (website.Str? && Truthy(website) && e == OpenUrl(NormalizeUrl(website.s))) ||
        (!Truthy(website) && query.Str? && e == OpenUrl(GoogleUrl(query.s)))
  {
    BrowseEffects(h, website, query, application);
    var t := TargetUrl(website, query);
    if t.Ok? {
      TargetIs(website, query);
    }
  }

  /** The handler opens nothing, or the target URL once. */
  lemma {:induction false} BrowseEffects(h: Host, website: Value, query: Value, application: Value)
    ensures var e := BrowseInternet(h, website, query, application).effects;
      e == [] || (TargetUrl(website, query).Ok? && e == [OpenUrl(TargetUrl(website, query).value)])
  {
    var t := TargetUrl(website, query);
    if !Truthy(website) && !Truthy(query) {
      BrowseNeedsTarget(h, website, query, application);
    } else if !h.browsersFound {
      NoBrowserEffects(h, website, query, application);
    } else if t.Ok? && Requested(application).Ok? {
      OpensTarget(h, website, query, application, t.value, Requested(application).value);
    }
  }

  lemma {:induction false} NoBrowserEffects(h: Host, website: Value, query: Value, application: Value)
    requires (Truthy(website) || Truthy(query)) && !h.browsersFound
    ensures BrowseInternet(h, website, query, application).effects == []
  {
  }

  /** The target is the normalised website or, without one, the Google search for the query. */
  lemma {:induction false} TargetIs(website: Value, query: Value)
    requires TargetUrl(website, query).Ok?
    ensures var u := TargetUrl(website, query).value;
      (website.Str? && Truthy(website) && u == NormalizeUrl(website.s)) ||
      (!Truthy(website) && query.Str? && u == GoogleUrl(query.s))
  {
  }

  /** Once the URL and the browser are known, the handler is `OpenTarget`. */
  lemma {:induction false} OpensTarget(h: Host, website: Value, query: Value, application: Value, url: string, requested: Option<string>)
    requires (Truthy(website) || Truthy(query)) && h.browsersFound
    requires TargetUrl(website, query) == Ok(url) && Requested(application) == Ok(requested)
    ensures BrowseInternet(h, website, query, application) == OpenTarget(h, url, requested)
  {
  }

  /** With neither a website nor a query the handler only asks, and opens nothing. */
  lemma {:induction false} BrowseNeedsTarget(h: Host, website: Value, query: Value, application: Value)
    requires !Truthy(website) && !Truthy(query)
    ensures var r := BrowseInternet(h, website, query, application);
      r.effects == [] && HasKey(r.result, "clarify")
  {
  }

  /** Every URL the handler builds has a scheme. */
  lemma {:induction false} TargetHasScheme(website: Value, query: Value)
    requires TargetUrl(website, query).Ok?
    ensures HasScheme(TargetUrl(website, query).value)
  {
    if !Truthy(website) {
      var u := GoogleUrl(query.s);
      assert u[..8] == "https://";
      assert IsPrefix("https://", u);
    }
  }

  /** Only the success reply carries a `url` key, and it holds the URL opened. */
  lemma {:induction false} UrlKeys(m: string, u: string, b: string)
    ensures !HasKey(Error(m), "url") && !HasKey(Message(m), "url") && !HasKey(Clarification(m), "url")
    ensures !HasKey(FallbackError(m), "url")
    ensures Lookup(OpenedReply(u, b), "url") == Some(Str(u))
  {
    var r := OpenedReply(u, b);
    assert r[0].0 == "message" != "url";
    assert r[1].0 == "browser" != "url";
    assert r[2..][0] == ("url", Str(u));
    assert Lookup(r[2..], "url") == Some(Str(u));
    assert r[1..][1..] == r[2..];
    assert Lookup(r[1..], "url") == Some(Str(u));
  }

  /** A reply that reports a URL reports the one built from the website or the query, which has a scheme. */
  lemma {:induction false} BrowseReportsTarget(h: Host, website: Value, query: Value, application: Value)
    requires HasKey(BrowseInternet(h, website, query, application).result, "url")
    ensures TargetUrl(website, query).Ok? && HasScheme(TargetUrl(website, query).value)
    ensures Lookup(BrowseInternet(h, website, query, application).result, "url") == Some(Str(TargetUrl(website, query).value))
  {
    if (Truthy(website) || Truthy(query)) && h.browsersFound {
      var t := TargetUrl(website, query);
      if t.Ok? && Requested(application).Ok? {
        TargetHasScheme(website, query);
        OpensTarget(h, website, query, application, t.value, Requested(application).value);
        OpeningKeys(h, t.value, Requested(application).value);
      } else {
        FallbackKeys(h, website, query);
      }
    } else if Truthy(website) || Truthy(query) {
      NoBrowserKeys(h, website, query, application);
    } else {
      NoTargetKeys(h, website, query, application);
    }
  }

  /** Asking for a target carries no `url` key. */
  lemma {:induction false} NoTargetKeys(h: Host, website: Value, query: Value, application: Value)
    requires !Truthy(website) && !Truthy(query)
    ensures !HasKey(BrowseInternet(h, website, query, application).result, "url")
  {
    NoUrlInClarification();
  }

  /** Asking whether to fall back carries no `url` key. */
  lemma {:induction false} NoBrowserKeys(h: Host, website: Value, query: Value, application: Value)
    requires (Truthy(website) || Truthy(query)) && !h.browsersFound
    ensures !HasKey(BrowseInternet(h, website, query, application).result, "url")
  {
    NoUrlInClarification();
  }

  lemma {:induction false} NoUrlInClarification()
    ensures forall q :: !HasKey(Clarification(q), "url")
  {
    forall q ensures !HasKey(Clarification(q), "url") {
      UrlKeys(q, "", "");
    }
  }

  /** Opening through a browser reports the URL exactly when it succeeds. */
  lemma {:induction false} OpeningKeys(h: Host, url: string, requested: Option<string>)
    ensures var r := OpenTarget(h, url, requested).result;
      HasKey(r, "url") ==> Lookup(r, "url") == Some(Str(url))
  {
    var named := if requested.Some? then h.tryBrowsers(url, requested.value) else None;
    if named.Some? {
      UrlKeys("", url, named.value);
    } else {
      match h.webOpen(url)
      case Raised(m) => UrlKeys("Failed to open browser: " + m, "", "");
      case Ok(success) =>
        UrlKeys("Failed to open " + url + ". No browser could be used.", url, "system default");
    }
  }

  lemma {:induction false} FallbackKeys(h: Host, website: Value, query: Value)
    requires Truthy(website) || Truthy(query)
    ensures !HasKey(Fallback(h, website, query).result, "url")
  {
    match TargetUrl(website, query)
    case Raised(m) => UrlKeys(m, "", "");
    case Ok(url) =>
      match h.webOpen(url)
      case Raised(m) => UrlKeys(m, "", "");
      case Ok(_) =>
        UrlKeys("Opened " + url + " using fallback method", "", "");
        if !Truthy(website) {
          UrlKeys("Searching Google for: " + query.s, "", "");
        }
  }
}
