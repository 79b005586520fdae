/**
 * The voice front ends' handling of a backend answer, the same text in
 * `frontend/jarvis_frontend_v1.py` and
 * `frontend/.ipynb_checkpoints/jarvis_frontend-checkpoint.py`:
 * `format_response_for_speech`, which picks what to say out of the answer;
 * `needs_clarification`; and the decision in `handle_backend_response` about
 * which result windows to open. Speaking, listening and the windows
 * themselves are not part of this model.
 */
module Speech {
  import opened Base
  import opened Text
  import opened Values

  // ---------------------------------------------------------------------------
  // Keyword scans
  // ---------------------------------------------------------------------------

  /** `any(word in s for word in words)`: the scan stops at the first word found. */
  function AnyIn(words: seq<string>, s: string): bool
  {
    if words == [] then false
    else if IsSubstring(words[0], s) then true
    else AnyIn(words[1..], s)
  }

  /** The first key of `keys` that `e` has, and its value. */
  function FirstKey(e: Entries, keys: seq<string>): (r: Option<Value>)
    ensures r.Some? ==> exists i :: 0 <= i < |keys| && Lookup(e, keys[i]) == r
    ensures r.None? <==> forall i :: 0 <= i < |keys| ==> !HasKey(e, keys[i])
  {
    if keys == [] then None
    else if HasKey(e, keys[0]) then Lookup(e, keys[0])
    else
      var r := FirstKey(e, keys[1..]);
      assert forall i :: 1 <= i < |keys| ==> keys[i] == keys[1..][i - 1];
      r
  }

  // ---------------------------------------------------------------------------
  // format_response_for_speech
  // ---------------------------------------------------------------------------

  /** `key in v` and then `v[key]`: nothing, the value, or what either raises. */
  function Pick(v: Value, key: string): Outcome<Option<Value>>
  {
    match Contains(v, key)
    case Raised(m) => Raised(m)
    case Ok(found) =>
      if !found then Ok(None)
      else
        match GetItem(v, key)
        case Raised(m) => Raised(m)
        case Ok(x) => Ok(Some(x))
  }

  /** `response_data`: the answer's `result`, else its `response`, else its `message`, else the whole answer. */
  function Source(result: Value): Outcome<Value>
  {
    match Pick(result, "result")
    case Raised(m) => Raised(m)
    case Ok(Some(x)) => Ok(x)
    case Ok(None) =>
      match Pick(result, "response")
      case Raised(m) => Raised(m)
      case Ok(Some(x)) => Ok(x)
      case Ok(None) =>
        match Pick(result, "message")
        case Raised(m) => Raised(m)
        case Ok(Some(x)) => Ok(x)
        case Ok(None) => Ok(result)
  }

  predicate NonEmptyString(v: Value)
  {
    v.Str? && |v.s| > 0
  }

  /** The loop over `response_data.items()`: the first value that is a non-empty string. */
  function FirstString(e: Entries): (r: Option<string>)
    ensures r.Some? ==> exists i :: (0 <= i < |e| && e[i].1 == Str(r.value) && r.value != [] &&
      forall j :: 0 <= j < i ==> !NonEmptyString(e[j].1))
    ensures r.None? <==> forall i :: 0 <= i < |e| ==> !NonEmptyString(e[i].1)
  {
    if e == [] then None
    else if NonEmptyString(e[0].1) then Some(e[0].1.s)
    else
      var r := FirstString(e[1..]);
      assert forall i :: 1 <= i < |e| ==> e[i] == e[1..][i - 1];
      r
  }

  /** What a dictionary gives to say: `content`, `output`, `text`, `message`, then `status`, then any non-empty string. */
  function DictSpeech(e: Entries): Value
  {
    if HasKey(e, "content") then Lookup(e, "content").value
    else if HasKey(e, "output") then Lookup(e, "output").value
    else if HasKey(e, "text") then Lookup(e, "text").value
    else if HasKey(e, "message") then Lookup(e, "message").value
    else if HasKey(e, "status") then Str("Command completed with status: " + PyStr(Lookup(e, "status").value))
    else
      match FirstString(e)
      case Some(s) => Str(s)
      case None => Str("Command executed successfully.")
  }

  /** `speech_text` before it is cleaned up, for each kind of `response_data`. */
  function Spoken(data: Value): Value
  {
    match data
    case Str(_) => data
    case Dict(e) => DictSpeech(e)
    case List(items) =>
      if items == [] then Str("Operation completed successfully.")
      else if items[0].Str? then Str("Found " + NatToString(|items|) + " items. " + items[0].s)
      else if items[0].Dict? then Str("Operation completed with " + NatToString(|items|) + " results.")
      else Str("")
    case _ => Str("Command executed successfully.")
  }

  const Limit := 300
  const MoreInLog := "... Check the log for full details."
  const Fallback := "Command completed successfully."

  /** The clean-up: whitespace collapsed, cut after 300 characters, and never empty. */
  function Clean(speech: Value): string
  {
    if !Truthy(speech) then Fallback
    else
      var t := Collapse(PyStr(speech));
      var cut := if |t| > Limit then t[..Limit] + MoreInLog else t;
      if cut == [] then Fallback else cut
  }

  /** `format_response_for_speech(result)`; a lookup that raises is answered by the `except`. */
  function FormatForSpeech(result: Value): (r: string)
    ensures r != []
    ensures |r| <= Limit + |MoreInLog|
  {
    match Source(result)
    case Raised(_) => "Command executed. Check the log for details."
    case Ok(data) => Clean(Spoken(data))
  }

  // ---------------------------------------------------------------------------
  // needs_clarification
  // ---------------------------------------------------------------------------

  function UnclearIndicators(): seq<string>
  {
    ["this", "that", "it", "something", "thing", "do something", "help me", "what", "how"]
  }

  /** `needs_clarification(command)`: a command of at most two words, or one containing an unclear word. */
  function NeedsClarification(command: string): bool
  {
    if |Words(command)| <= 2 then true
    else AnyIn(UnclearIndicators(), Lower(command))
  }

  // ---------------------------------------------------------------------------
  // handle_backend_response
  // ---------------------------------------------------------------------------

  /** The windows `handle_backend_response` may open, in the order it opens them. */
  datatype Window = JsonResult | DeviceStats | LocationInfo | NetworkInfo

  function LaunchWords(): seq<string>
  {
    [ "open", "launch", "start", "run", "execute", "notepad", "calculator", "browser", "chrome", "firefox", "edge",
      "surf", "browse", "search", "google", "youtube", "website" ]
  }

  function InfoWords(): seq<string> { ["stat", "info", "detail", "show", "display", "get"] }

  function DeviceWords(): seq<string> { ["device", "system", "computer", "hardware"] }

  function LocationWords(): seq<string> { ["location", "where", "ip", "address"] }

  function NetworkWords(): seq<string> { ["network", "connection", "wifi", "ethernet"] }

  /** `is_app_launch` */
  predicate IsAppLaunch(command: string)
  {
    AnyIn(LaunchWords(), Lower(command))
  }

  /** The information window of a query, device first, then location, then network. */
  function InfoWindow(lower: string): seq<Window>
  {
    if !AnyIn(InfoWords(), lower) then []
    else if AnyIn(DeviceWords(), lower) then [DeviceStats]
    else if AnyIn(LocationWords(), lower) then [LocationInfo]
    else if AnyIn(NetworkWords(), lower) then [NetworkInfo]
    else []
  }

  /** The windows opened for `command` and its `result`: none for an application launch. */
  function Windows(command: string, result: Value): seq<Window>
  {
    if IsAppLaunch(command) then []
    else
      (if (result.Dict? || result.List?) && |Repr(result)| > 200 then [JsonResult] else [])
      + InfoWindow(Lower(command))
  }

  // ---------------------------------------------------------------------------
  // Properties
  // ---------------------------------------------------------------------------

  /** The scan finds a word exactly when one of the words occurs in `s`. */
  lemma {:induction false} AnyInIff(words: seq<string>, s: string)
    ensures AnyIn(words, s) <==> exists k :: 0 <= k < |words| && IsSubstring(words[k], s)
    decreases |words|
  {
    if words != [] {
      AnyInIff(words[1..], s);
      assert forall k :: 1 <= k < |words| ==> words[k] == words[1..][k - 1];
    }
  }

  lemma PickOfDict(e: Entries, k: string)
    ensures Pick(Dict(e), k) == Ok(Lookup(e, k))
  {
  }

  /** The spoken value is the answer's first of `result`, `response`, `message`, or the whole answer. */
  lemma {:induction false} SourceOfDict(e: Entries)
    ensures Source(Dict(e)) == Ok(match FirstKey(e, ["result", "response", "message"])
      case Some(v) => v
      case None => Dict(e))
  {
    var keys := ["result", "response", "message"];
    PickOfDict(e, "result");
    PickOfDict(e, "response");
    PickOfDict(e, "message");
    assert keys[1..] == ["response", "message"] && keys[1..][1..] == ["message"];
    if !HasKey(e, "result") {
      assert FirstKey(e, keys) == FirstKey(e, keys[1..]);
      if !HasKey(e, "response") {
        assert FirstKey(e, keys[1..]) == FirstKey(e, keys[1..][1..]);
      }
    }
  }

  /** An answer that is not a container cannot be searched for keys, and the `except` answers. */
  lemma {:induction false} SourceOfScalarRaises(result: Value)
    requires !(result.Dict? || result.List? || result.Str?)
    ensures FormatForSpeech(result) == "Command executed. Check the log for details."
  {
  }

  /** In a dictionary, `content`, `output`, `text` and `message` are spoken in that order of preference. */
  lemma {:induction false} DictPreference(e: Entries)
    requires FirstKey(e, ["content", "output", "text", "message"]).Some?
    ensures DictSpeech(e) == FirstKey(e, ["content", "output", "text", "message"]).value
  {
    var keys := ["content", "output", "text", "message"];
    assert keys[1..] == ["output", "text", "message"];
    assert keys[1..][1..] == ["text", "message"];
    assert keys[1..][1..][1..] == ["message"];
    if !HasKey(e, "content") {
      assert FirstKey(e, keys) == FirstKey(e, keys[1..]);
      if !HasKey(e, "output") {
        assert FirstKey(e, keys[1..]) == FirstKey(e, keys[1..][1..]);
        if !HasKey(e, "text") {
          assert FirstKey(e, keys[1..][1..]) == FirstKey(e, keys[1..][1..][1..]);
        }
      }
    }
  }

  /** Without any of the preferred keys, a `status` is announced, else the first non-empty string is said. */
  lemma {:induction false} DictFallbacks(e: Entries)
    requires FirstKey(e, ["content", "output", "text", "message"]).None?
    ensures HasKey(e, "status") ==>
      DictSpeech(e) == Str("Command completed with status: " + PyStr(Lookup(e, "status").value))
    ensures !HasKey(e, "status") && FirstString(e).Some? ==> DictSpeech(e) == Str(FirstString(e).value)
    ensures !HasKey(e, "status") && FirstString(e).None? ==> DictSpeech(e) == Str("Command executed successfully.")
  {
    var keys := ["content", "output", "text", "message"];
    assert keys[0] == "content" && keys[1] == "output" && keys[2] == "text" && keys[3] == "message";
  }

  /** A list is summarised by its length, with its first item when that is a string. */
  lemma {:induction false} ListSpeech(items: seq<Value>)
    requires items != []
    ensures items[0].Str? ==> Spoken(List(items)) == Str("Found " + NatToString(|items|) + " items. " + items[0].s)
    ensures items[0].Dict? ==> Spoken(List(items)) == Str("Operation completed with " + NatToString(|items|) + " results.")
    ensures !items[0].Str? && !items[0].Dict? ==> Clean(Spoken(List(items))) == Fallback
  {
  }

  /**
   * Speech of at most 300 characters is the text with its whitespace
   * collapsed: the same words, single spaces between them, none at the ends.
   */
  lemma {:induction false} ShortSpeechIsCollapsed(speech: Value)
    requires Truthy(speech) && 0 < |Collapse(PyStr(speech))| <= Limit
    ensures Clean(speech) == Collapse(PyStr(speech))
    ensures Collapsed(Clean(speech)) && Words(Clean(speech)) == Words(PyStr(speech))
  {
    var t := PyStr(speech);
    assert Clean(speech) == Collapse(t);
    CollapsedWords(t);
  }

  /** Collapsing keeps the words and leaves single spaces between them. */
  lemma {:induction false} CollapsedWords(t: string)
    ensures Collapsed(Collapse(t)) && Words(Collapse(t)) == Words(t)
  {
    CollapseShape(t);
    WordsOfJoin(Words(t));
  }

  /** Longer speech keeps its first 300 characters and points to the log. */
  lemma {:induction false} LongSpeechIsCut(speech: Value)
    requires Truthy(speech) && |Collapse(PyStr(speech))| > Limit
    ensures Clean(speech) == Collapse(PyStr(speech))[..Limit] + MoreInLog
    ensures |Clean(speech)| == Limit + |MoreInLog|
  {
  }

  /** Speech with no words at all falls back to the fixed sentence. */
  lemma {:induction false} BlankSpeechFallsBack(speech: Value)
    requires Words(PyStr(speech)) == []
    ensures Clean(speech) == Fallback
  {
    CollapseShape(PyStr(speech));
  }

  /** A command needs clarification exactly when it has at most two words or contains an unclear indicator. */
  lemma {:induction false} NeedsClarificationIff(command: string)
    ensures NeedsClarification(command) <==>
      |Words(command)| <= 2 ||
      exists k :: 0 <= k < |UnclearIndicators()| && IsSubstring(UnclearIndicators()[k], Lower(command))
  {
    AnyInIff(UnclearIndicators(), Lower(command));
  }

  /** An application launch opens no window at all. */
  lemma {:induction false} LaunchOpensNothing(command: string, result: Value)
    requires exists k :: 0 <= k < |LaunchWords()| && IsSubstring(LaunchWords()[k], Lower(command))
    ensures Windows(command, result) == []
  {
    AnyInIff(LaunchWords(), Lower(command));
  }

  /** The JSON window opens exactly for a query that is not a launch and whose dict or list result prints long. */
  lemma {:induction false} JsonWindowIff(command: string, result: Value)
    ensures JsonResult in Windows(command, result) <==>
      !IsAppLaunch(command) && (result.Dict? || result.List?) && |Repr(result)| > 200
  {
    assert JsonResult !in InfoWindow(Lower(command));
  }

  /** At most one information window opens, after the JSON window, and only for a query with an information word. */
  lemma {:induction false} OneInfoWindow(command: string, result: Value)
    ensures var w := Windows(command, result);
      |w| <= 2 && (forall i :: 0 < i < |w| ==> w[i] != JsonResult) &&
      (|w| == 2 ==> w[0] == JsonResult) &&
      (forall i :: 0 <= i < |w| && w[i] != JsonResult ==>
        exists k :: 0 <= k < |InfoWords()| && IsSubstring(InfoWords()[k], Lower(command)))
  {
    AnyInIff(InfoWords(), Lower(command));
  }

  /**
   * Which information window opens: the device statistics whenever a device
   * word is present, the location only without one, the network only without
   * either.
   */
  lemma {:induction false} InfoWindowPriority(command: string, result: Value)
    requires !IsAppLaunch(command) && AnyIn(InfoWords(), Lower(command))
    ensures var lower := Lower(command);
      var info := Windows(command, result)[|Windows(command, result)| - |InfoWindow(lower)|..];
      (info == [DeviceStats] <==> (exists k :: 0 <= k < |DeviceWords()| && IsSubstring(DeviceWords()[k], lower))) &&
      (info == [LocationInfo] <==> (!AnyIn(DeviceWords(), lower) &&
        exists k :: 0 <= k < |LocationWords()| && IsSubstring(LocationWords()[k], lower))) &&
      (info == [NetworkInfo] <==> (!AnyIn(DeviceWords(), lower) && !AnyIn(LocationWords(), lower) &&
        exists k :: 0 <= k < |NetworkWords()| && IsSubstring(NetworkWords()[k], lower)))
  {
    var lower := Lower(command);
    AnyInIff(DeviceWords(), lower);
    AnyInIff(LocationWords(), lower);
    AnyInIff(NetworkWords(), lower);
  }
}
