/**
 Conversation identities in provider URLs: printed for recovery, parsed from whatever page is open.
 Text is ASCII; percent-encoding is that of RFC 3986, sections 2.1 and 2.3, as `encodeURIComponent`
 and `decodeURIComponent` apply it.
 */
module ProviderUrl {
  import opened Wrappers

  datatype Provider = ChatGpt | Gemini | Grok

  predicate IsDigit(c: char) { '0' <= c <= '9' }
  predicate IsAlpha(c: char) { 'a' <= c <= 'z' || 'A' <= c <= 'Z' }
  predicate IsHex(c: char) { IsDigit(c) || 'a' <= c <= 'f' || 'A' <= c <= 'F' }
  predicate IsAscii(s: string) { forall i :: 0 <= i < |s| ==> s[i] as int < 0x80 }

  function LowerChar(c: char): char {
    if 'A' <= c <= 'Z' then (c as int + 32) as char else c
  }

  function Lower(s: string): (r: string)
    ensures |r| == |s| && forall i :: 0 <= i < |s| ==> r[i] == LowerChar(s[i])
  {
    seq(|s|, i requires 0 <= i < |s| => LowerChar(s[i]))
  }

  // ---------------------------------------------------------------- identities

  predicate IsPlainId(s: string) {
    |s| >= 6 && forall c <- s :: IsAlpha(c) || IsDigit(c) || c == '_' || c == '-'
  }

  /** `WEB:` and a UUID, in either case. */
  predicate IsWebId(s: string) {
    && |s| == 40 && Lower(s[..4]) == "web:"
    && forall i :: 4 <= i < 40 ==> if i in {12, 17, 22, 27} then s[i] == '-' else IsHex(s[i])
  }

  predicate IsValidId(provider: Provider, s: string) {
    IsPlainId(s) || (provider.ChatGpt? && IsWebId(s))
  }

  // ---------------------------------------------------------------- percent-encoding

  predicate IsUnescaped(c: char) {
    IsAlpha(c) || IsDigit(c) || c in {'-', '_', '.', '!', '~', '*', '\'', '(', ')'}
  }

  function HexDigit(n: nat): char
    requires n < 16
  {
    if n < 10 then ('0' as int + n) as char else ('A' as int + n - 10) as char
  }

  function HexValue(c: char): nat
    requires IsHex(c)
  {
    if IsDigit(c) then c as int - '0' as int else if 'a' <= c then c as int - 'a' as int + 10
    else c as int - 'A' as int + 10
  }

  function EncodeChar(c: char): string
    requires c as int < 0x80
  {
    if IsUnescaped(c) then [c] else ['%', HexDigit(c as int / 16), HexDigit(c as int % 16)]
  }

  function EncodeComponent(s: string): (r: string)
    requires IsAscii(s)
    ensures forall c <- r :: c == '%' || IsUnescaped(c)
  {
    if s == "" then "" else EncodeChar(s[0]) + EncodeComponent(s[1..])
  }

  /** `None` is the `URIError` of a malformed escape. */
  function DecodeComponent(s: string): Option<string> {
    if s == "" then Some("")
    else if s[0] == '%' then
      if |s| < 3 || !IsHex(s[1]) || !IsHex(s[2]) || 16 * HexValue(s[1]) + HexValue(s[2]) >= 0x80 then None
      else Prepend((16 * HexValue(s[1]) + HexValue(s[2])) as char, DecodeComponent(s[3..]))
    else Prepend(s[0], DecodeComponent(s[1..]))
  }

  function Prepend(c: char, rest: Option<string>): Option<string> {
    if rest.None? then None else Some([c] + rest.value)
  }

  lemma {:induction false} DecodeEncode(s: string)
    requires IsAscii(s)
    ensures DecodeComponent(EncodeComponent(s)) == Some(s)
  {
    if s != "" {
      DecodeEncode(s[1..]);
      var head, tail := EncodeChar(s[0]), EncodeComponent(s[1..]);
      assert (head + tail)[|head|..] == tail;
      if !IsUnescaped(s[0]) { HexDigits(s[0]); }
      assert [s[0]] + s[1..] == s;
    }
  }

  lemma HexDigits(c: char)
    requires c as int < 0x80
    ensures IsHex(HexDigit(c as int / 16)) && IsHex(HexDigit(c as int % 16))
    ensures 16 * HexValue(HexDigit(c as int / 16)) + HexValue(HexDigit(c as int % 16)) == c as int
  {}

  // ---------------------------------------------------------------- URLs

  /** The parts of a parsed URL this code reads: the host is lower-case and the path starts with a slash. */
  datatype Url = Url(scheme: string, authority: string, path: string)

  /** The first position of a character of `stops`, or the length. */
  function Find(s: string, stops: set<char>): (i: nat)
    ensures i <= |s| && (i < |s| ==> s[i] in stops) && forall j :: 0 <= j < i ==> s[j] !in stops
  {
    if s == "" || s[0] in stops then 0 else 1 + Find(s[1..], stops)
  }

  lemma {:induction false} FindAfter(prefix: string, rest: string, stops: set<char>)
    requires (forall c <- prefix :: c !in stops) && (rest != "" ==> rest[0] in stops)
    ensures Find(prefix + rest, stops) == |prefix|
  {
    if prefix == "" {
      assert prefix + rest == rest;
    } else {
      FindAfter(prefix[1..], rest, stops);
      assert (prefix + rest)[0] == prefix[0] && (prefix + rest)[1..] == prefix[1..] + rest;
    }
  }

  predicate IsScheme(s: string) {
    s != "" && IsAlpha(s[0]) && forall c <- s :: IsAlpha(c) || IsDigit(c) || c in {'+', '-', '.'}
  }

  /** `new URL(text)` for an absolute URL with a host. */
  function ParseUrl(text: string): Option<Url> {
    var colon := Find(text, {':'});
    if !IsScheme(text[..colon]) || |text| < colon + 3 || text[colon..colon + 3] != "://" then None
    else
      var rest := text[colon + 3..];
      var slash := Find(rest, {'/', '?', '#'});
      if slash == 0 || rest[0] == ':' then None
      else
        var tail := rest[slash..];
        var path := tail[..Find(tail, {'?', '#'})];
        Some(Url(Lower(text[..colon]), Lower(rest[..slash]), if path == "" then "/" else path))
  }

  /** `url.hostname`. */
  function Hostname(u: Url): string {
    u.authority[..Find(u.authority, {':'})]
  }

  /** `url.href` of a URL without query and fragment. */
  function Href(u: Url): string {
    u.scheme + "://" + u.authority + u.path
  }

  ghost predicate IsUrl(u: Url) {
    && IsScheme(u.scheme) && Lower(u.scheme) == u.scheme && Lower(u.authority) == u.authority
    && u.authority != "" && u.authority[0] != ':' && (forall c <- u.authority :: c !in {'/', '?', '#'})
    && u.path != "" && u.path[0] == '/' && (forall c <- u.path :: c !in {'?', '#'})
  }

  lemma LowerTwice(s: string)
    ensures Lower(Lower(s)) == Lower(s)
  {}

  lemma LowerKeepsScheme(s: string)
    requires IsScheme(s)
    ensures IsScheme(Lower(s))
  {
    forall c | c in Lower(s) ensures IsAlpha(c) || IsDigit(c) || c in {'+', '-', '.'} {
      var i :| 0 <= i < |s| && Lower(s)[i] == c;
      assert s[i] in s;
    }
  }

  lemma LowerKeepsAuthority(s: string)
    requires s != "" && s[0] != ':' && forall i :: 0 <= i < |s| ==> s[i] !in {'/', '?', '#'}
    ensures Lower(s) != "" && Lower(s)[0] != ':' && forall c <- Lower(s) :: c !in {'/', '?', '#'}
  {}

  lemma ParsedIsUrl(text: string)
    requires ParseUrl(text).Some?
    ensures IsUrl(ParseUrl(text).value)
  {
    var colon := Find(text, {':'});
    var rest := text[colon + 3..];
    var slash := Find(rest, {'/', '?', '#'});
    LowerTwice(text[..colon]);
    LowerTwice(rest[..slash]);
    LowerKeepsScheme(text[..colon]);
    LowerKeepsAuthority(rest[..slash]);
    ParsedPath(rest[slash..]);
  }

  lemma ParsedPath(tail: string)
    requires tail == "" || tail[0] in {'/', '?', '#'}
    ensures var path := tail[..Find(tail, {'?', '#'})];
            (path == "" || path[0] == '/') && forall c <- path :: c !in {'?', '#'}
  {}

  /** Printing a parsed URL and parsing it again gives the same URL. */
  lemma ParseHref(u: Url)
    requires IsUrl(u)
    ensures ParseUrl(Href(u)) == Some(u)
  {
    hide Lower, Find;
    SchemeFound(u);
    AuthorityFound(u);
    var text := Href(u);
    assert text[..|u.scheme|] == u.scheme && text[|u.scheme|..|u.scheme| + 3] == "://";
    var rest := text[|u.scheme| + 3..];
    assert rest == u.authority + u.path;
    assert rest[..|u.authority|] == u.authority && rest[|u.authority|..] == u.path;
    assert u.path[..|u.path|] == u.path;
  }

  lemma SchemeFound(u: Url)
    requires IsUrl(u)
    ensures Find(Href(u), {':'}) == |u.scheme|
  {
    assert Href(u) == u.scheme + ("://" + u.authority + u.path);
    assert forall c <- u.scheme :: c !in {':'};
    FindAfter(u.scheme, "://" + u.authority + u.path, {':'});
  }

  lemma AuthorityFound(u: Url)
    requires IsUrl(u)
    ensures Find(u.authority + u.path, {'/', '?', '#'}) == |u.authority| && Find(u.path, {'?', '#'}) == |u.path|
  {
    FindAfter(u.authority, u.path, {'/', '?', '#'});
    assert u.path == u.path + "";
    FindAfter(u.path, "", {'?', '#'});
  }

  // ---------------------------------------------------------------- printing

  function Marker(provider: Provider): string {
    if provider.Gemini? then "app" else "c"
  }

  /** `providerConversationUrl`: the base URL contributes its origin only; a base that is no URL throws. */
  function ProviderConversationUrl(provider: Provider, conversation: string, base: string): Option<string>
    requires IsAscii(conversation)
  {
    var b := ParseUrl(base);
    if b.None? then None
    else Some(Href(b.value.(path := "/" + Marker(provider) + "/" + EncodeComponent(conversation))))
  }

  // ---------------------------------------------------------------- parsing

  const CHATGPT_HOSTS: set<string> := {"chatgpt.com", "chat.openai.com"}
  const GEMINI_HOSTS: set<string> := {"gemini.google.com"}
  const GROK_HOSTS: set<string> := {"grok.com", "x.com"}

  function Hosts(provider: Provider): set<string> {
    match provider
    case ChatGpt => CHATGPT_HOSTS
    case Gemini => GEMINI_HOSTS
    case Grok => GROK_HOSTS
  }

  predicate IsProviderUrl(provider: Provider, text: string) {
    var u := ParseUrl(text); u.Some? && Hostname(u.value) in Hosts(provider)
  }

  /** `pathname.split('/').filter(Boolean)`. */
  function Segments(path: string): seq<string>
    decreases |path|
  {
    if path == "" then []
    else
      var i := Find(path, {'/'});
      (if i == 0 then [] else [path[..i]]) + (if i == |path| then [] else Segments(path[i + 1..]))
  }

  function DecodeAll(segments: seq<string>): Option<seq<string>> {
    if segments == [] then Some([])
    else
      var head, rest := DecodeComponent(segments[0]), DecodeAll(segments[1..]);
      if head.None? || rest.None? then None else Some([head.value] + rest.value)
  }

  /** `segments[segments.lastIndexOf(marker) + 1]`, when there is a marker and something after it. */
  function AfterLast(segments: seq<string>, marker: string): Option<string> {
    if segments == [] then None
    else if segments[|segments| - 1] == marker then None
    else if |segments| >= 2 && segments[|segments| - 2] == marker then Some(segments[|segments| - 1])
    else AfterLast(segments[..|segments| - 1], marker)
  }

  function ParseChatGptConversationId(text: string): Option<string> {
    var u := ParseUrl(text);
    if u.None? || Hostname(u.value) !in CHATGPT_HOSTS then None
    else
      var segments := DecodeAll(Segments(u.value.path));
      if segments.None? then None
      else
        var candidate := AfterLast(segments.value, "c");
        if candidate.Some? && (IsPlainId(candidate.value) || IsWebId(candidate.value)) then candidate else None
  }

  function PlainIdAfter(segments: seq<string>, markers: seq<string>): Option<string> {
    if markers == [] then None
    else
      var candidate := AfterLast(segments, markers[0]);
      if candidate.Some? && IsPlainId(candidate.value) then candidate else PlainIdAfter(segments, markers[1..])
  }

  function ParseProviderConversationId(text: string): Option<string> {
    var chatGpt := ParseChatGptConversationId(text);
    if chatGpt.Some? then chatGpt
    else
      var u := ParseUrl(text);
      if u.None? then None
      else
        var segments := DecodeAll(Segments(u.value.path));
        if segments.None? then None
        else if Hostname(u.value) in GEMINI_HOSTS then PlainIdAfter(segments.value, ["app"])
        else if Hostname(u.value) in GROK_HOSTS then PlainIdAfter(segments.value, ["c", "chat", "conversation"])
        else None
  }

  // ---------------------------------------------------------------- round trip

  lemma ValidIsAscii(provider: Provider, s: string)
    requires IsValidId(provider, s)
    ensures IsAscii(s) && |s| >= 6
  {
    if IsPlainId(s) {
      forall i | 0 <= i < |s| ensures s[i] as int < 0x80 { assert s[i] in s; }
    } else {
      forall i | 0 <= i < |s| ensures s[i] as int < 0x80 {
        if i < 4 { assert Lower(s[..4])[i] == "web:"[i]; }
      }
    }
  }

  lemma EncodedIsNotEmpty(s: string)
    requires IsAscii(s) && s != ""
    ensures EncodeComponent(s) != ""
  {
    assert |EncodeChar(s[0])| >= 1;
  }

  /** The printed path has exactly the marker and the encoded identity. */
  lemma PrintedSegments(marker: string, encoded: string)
    requires marker != "" && encoded != "" && (forall c <- marker :: c != '/') && (forall c <- encoded :: c != '/')
    ensures Segments("/" + marker + "/" + encoded) == [marker, encoded]
  {
    var path := "/" + marker + "/" + encoded;
    assert Find(path, {'/'}) == 0;
    assert path[1..] == marker + ("/" + encoded);
    FindAfter(marker, "/" + encoded, {'/'});
    assert path[1..][|marker| + 1..] == encoded && path[1..][..|marker|] == marker;
    assert encoded == encoded + "";
    FindAfter(encoded, "", {'/'});
    assert encoded[..|encoded|] == encoded;
    assert Segments(encoded) == [encoded];
    assert Segments(path[1..]) == [marker] + Segments(encoded);
    assert Segments(path) == Segments(path[1..]);
  }

  /**
   For every provider, every base URL on one of its hosts and every identity valid there, the
   printed URL belongs to that provider and parses back to the identity, also when the identity
   is spelled like a path marker or holds a percent-encoded colon.
   */
  lemma {:induction false} ParsePrinted(provider: Provider, conversation: string, base: string)
    requires IsValidId(provider, conversation) && IsProviderUrl(provider, base)
    ensures IsAscii(conversation)
    ensures var printed := ProviderConversationUrl(provider, conversation, base);
            && printed.Some? && IsProviderUrl(provider, printed.value)
            && ParseProviderConversationId(printed.value) == Some(conversation)
  {
    hide IsPlainId, IsWebId, Segments, ParseUrl, Href, Find, EncodeComponent, DecodeComponent, Lower, DecodeAll,
      AfterLast, IsUnescaped;
    ValidIsAscii(provider, conversation);
    var encoded := EncodeComponent(conversation);
    var printed := ParseUrl(base).value.(path := "/" + Marker(provider) + "/" + encoded);
    ParsedIsUrl(base);
    EncodedIsNotEmpty(conversation);
    EncodedIsOneSegment(provider, conversation);
    ParseHref(printed);
    PrintedSegments(Marker(provider), encoded);
    DecodedSegments(provider, conversation);
    AfterMarker(provider, conversation);
  }

  lemma EncodedIsOneSegment(provider: Provider, conversation: string)
    requires IsAscii(conversation)
    ensures forall c <- EncodeComponent(conversation) :: c !in {'/', '?', '#'}
    ensures forall c <- Marker(provider) :: c !in {'/', '?', '#'}
    ensures forall c <- "/" + Marker(provider) + "/" + EncodeComponent(conversation) :: c !in {'?', '#'}
  {}

  lemma DecodedSegments(provider: Provider, conversation: string)
    requires IsAscii(conversation)
    ensures DecodeAll([Marker(provider), EncodeComponent(conversation)]) == Some([Marker(provider), conversation])
  {
    var encoded := EncodeComponent(conversation);
    DecodeEncode(conversation);
    DecodedMarker(provider);
    assert [Marker(provider), encoded][1..] == [encoded] && [encoded][1..] == [];
    assert DecodeAll([encoded][1..]) == Some([]);
    assert [conversation] + [] == [conversation]
           && [Marker(provider)] + [conversation] == [Marker(provider), conversation];
    assert DecodeAll([encoded]) == Some([conversation]);
  }

  lemma AfterMarker(provider: Provider, conversation: string)
    requires IsValidId(provider, conversation)
    ensures AfterLast([Marker(provider), conversation], Marker(provider)) == Some(conversation)
    ensures !provider.ChatGpt? ==> IsPlainId(conversation)
  {
    ValidIsAscii(provider, conversation);
  }

  lemma DecodedMarker(provider: Provider)
    ensures DecodeComponent(Marker(provider)) == Some(Marker(provider))
  {
    UnescapedIsKept(Marker(provider));
    DecodeEncode(Marker(provider));
  }

  lemma {:induction false} UnescapedIsKept(s: string)
    requires IsAscii(s) && forall i :: 0 <= i < |s| ==> IsUnescaped(s[i])
    ensures EncodeComponent(s) == s
  {
    if s != "" {
      UnescapedIsKept(s[1..]);
      assert s == [s[0]] + s[1..];
    }
  }

  /** Whatever page is open, a parsed identity is one that the page's own provider could have issued. */
  lemma {:induction false} ParsedIsValid(text: string)
    requires ParseProviderConversationId(text).Some?
    ensures exists provider ::
            IsProviderUrl(provider, text) && IsValidId(provider, ParseProviderConversationId(text).value)
  {
    var id := ParseProviderConversationId(text).value;
    var host := Hostname(ParseUrl(text).value);
    if ParseChatGptConversationId(text).Some? {
      assert IsProviderUrl(ChatGpt, text) && IsValidId(ChatGpt, id);
    } else {
      var segments := DecodeAll(Segments(ParseUrl(text).value.path)).value;
      if host in GEMINI_HOSTS {
        PlainIdsArePlain(segments, ["app"]);
        assert IsProviderUrl(Gemini, text) && IsValidId(Gemini, id);
      } else {
        PlainIdsArePlain(segments, ["c", "chat", "conversation"]);
        assert IsProviderUrl(Grok, text) && IsValidId(Grok, id);
      }
    }
  }

  lemma {:induction false} PlainIdsArePlain(segments: seq<string>, markers: seq<string>)
    requires PlainIdAfter(segments, markers).Some?
    ensures IsPlainId(PlainIdAfter(segments, markers).value)
  {
    var candidate := AfterLast(segments, markers[0]);
    if !(candidate.Some? && IsPlainId(candidate.value)) { PlainIdsArePlain(segments, markers[1..]); }
  }

  // ---------------------------------------------------------------- which identity a page shows

  /** The identity follows the last occurrence of the marker. */
  predicate Follows(segments: seq<string>, marker: string, id: string, k: nat) {
    && k + 1 < |segments| && segments[k] == marker && segments[k + 1] == id
    && forall j :: k < j < |segments| ==> segments[j] != marker
  }

  ghost predicate Marked(segments: seq<string>, marker: string, id: string) {
    exists k: nat :: Follows(segments, marker, id, k)
  }

  lemma {:induction false} AfterLastExactlyWhen(segments: seq<string>, marker: string, id: string)
    ensures AfterLast(segments, marker) == Some(id) <==> Marked(segments, marker, id)
  {
    if segments != [] && segments[|segments| - 1] != marker {
      var front, n := segments[..|segments| - 1], |segments|;
      AfterLastExactlyWhen(front, marker, id);
      if n >= 2 && segments[n - 2] == marker {
        assert segments[n - 1] == id ==> Follows(segments, marker, id, n - 2);
        assert forall k: nat :: Follows(segments, marker, id, k) ==> k == n - 2;
      } else {
        assert forall k: nat :: Follows(front, marker, id, k) ==> Follows(segments, marker, id, k);
        assert forall k: nat :: Follows(segments, marker, id, k) ==> Follows(front, marker, id, k);
      }
    }
  }

  /** The first of the markers after which a plain identity comes. */
  ghost predicate FirstPlain(segments: seq<string>, markers: seq<string>, id: string, m: nat) {
    && m < |markers| && IsPlainId(id) && Marked(segments, markers[m], id)
    && forall n, other :: 0 <= n < m && IsPlainId(other) ==> !Marked(segments, markers[n], other)
  }

  lemma {:induction false} PlainIdExactlyWhen(segments: seq<string>, markers: seq<string>, id: string)
    ensures PlainIdAfter(segments, markers) == Some(id) <==> exists m: nat :: FirstPlain(segments, markers, id, m)
  {
    hide Marked, IsPlainId;
    if markers != [] {
      var candidate := AfterLast(segments, markers[0]);
      forall other: string
        ensures candidate == Some(other) <==> Marked(segments, markers[0], other)
      {
        AfterLastExactlyWhen(segments, markers[0], other);
      }
      PlainIdExactlyWhen(segments, markers[1..], id);
      if candidate.Some? && IsPlainId(candidate.value) {
        assert FirstPlain(segments, markers, candidate.value, 0);
        assert forall m: nat :: FirstPlain(segments, markers, id, m) ==> m == 0;
      } else {
        forall m: nat ensures FirstPlain(segments, markers[1..], id, m) <==> FirstPlain(segments, markers, id, m + 1) {
          LaterMarker(segments, markers, id, m);
        }
        assert !FirstPlain(segments, markers, id, 0);
        assert forall m: nat :: FirstPlain(segments, markers, id, m) ==> FirstPlain(segments, markers[1..], id, m - 1);
      }
    }
  }

  lemma LaterMarker(segments: seq<string>, markers: seq<string>, id: string, m: nat)
    requires markers != [] && forall other :: IsPlainId(other) ==> !Marked(segments, markers[0], other)
    ensures FirstPlain(segments, markers[1..], id, m) <==> FirstPlain(segments, markers, id, m + 1)
  {
    hide Marked, IsPlainId;
    if FirstPlain(segments, markers[1..], id, m) {
      forall n, other | 0 <= n < m + 1 && IsPlainId(other) ensures !Marked(segments, markers[n], other) {
        if n > 0 { assert markers[n] == markers[1..][n - 1]; }
      }
    }
    if FirstPlain(segments, markers, id, m + 1) {
      forall n, other | 0 <= n < m && IsPlainId(other) ensures !Marked(segments, markers[1..][n], other) {
        assert markers[1..][n] == markers[n + 1];
      }
    }
  }

  /** The decoded segments of the page's path. */
  function PathOf(text: string): Option<seq<string>> {
    var u := ParseUrl(text);
    if u.None? then None else DecodeAll(Segments(u.value.path))
  }

  /**
   A page shows exactly the identity that follows the last marker of its own provider in its path, wherever that is: for
   ChatGPT a plain or a temporary one, for the others a plain one, after the first of their markers that has one.
   */
  lemma {:induction false} ShownExactlyWhen(text: string, id: string)
    ensures ParseProviderConversationId(text) == Some(id) <==>
              && PathOf(text).Some?
              && var segments := PathOf(text).value;
                 || (IsProviderUrl(ChatGpt, text) && (IsPlainId(id) || IsWebId(id)) && Marked(segments, "c", id))
                 || (IsProviderUrl(Gemini, text) && exists m: nat :: FirstPlain(segments, ["app"], id, m))
                 || (IsProviderUrl(Grok, text)
                     && exists m: nat :: FirstPlain(segments, ["c", "chat", "conversation"], id, m))
  {
    hide Marked, FirstPlain, IsPlainId, IsWebId, AfterLast, PlainIdAfter, DecodeAll, Segments, Find;
    if PathOf(text).Some? {
      var segments := PathOf(text).value;
      AfterLastExactlyWhen(segments, "c", id);
      PlainIdExactlyWhen(segments, ["app"], id);
      PlainIdExactlyWhen(segments, ["c", "chat", "conversation"], id);
      HostsDiffer();
    }
  }

  lemma HostsDiffer()
    ensures CHATGPT_HOSTS !! GEMINI_HOSTS && CHATGPT_HOSTS !! GROK_HOSTS && GEMINI_HOSTS !! GROK_HOSTS
  {
    assert |"chatgpt.com"| == 11 && |"chat.openai.com"| == 15 && |"gemini.google.com"| == 17;
    assert |"grok.com"| == 8 && |"x.com"| == 5;
  }

  /** A path of non-empty segments. */
  function Joined(segments: seq<string>): string {
    if segments == [] then "" else "/" + segments[0] + Joined(segments[1..])
  }

  predicate IsSegment(s: string) { s != "" && forall c <- s :: c != '/' }

  lemma SkipsSlash(path: string)
    requires path != "" && path[0] == '/'
    ensures Segments(path) == Segments(path[1..])
  {
    assert Find(path, {'/'}) == 0;
  }

  lemma SplitsOnce(path: string, i: nat)
    requires path != "" && Find(path, {'/'}) == i > 0
    ensures i <= |path|
    ensures Segments(path) == [path[..i]] + (if i == |path| then [] else Segments(path[i + 1..]))
  {}

  lemma SplitsOne(segment: string, rest: string)
    requires IsSegment(segment) && (rest != "" ==> rest[0] == '/')
    ensures Segments("/" + segment + rest) == [segment] + Segments(rest)
  {
    hide Segments;
    var path := "/" + segment + rest;
    SkipsSlash(path);
    assert path[1..] == segment + rest;
    FindAfter(segment, rest, {'/'});
    SplitsOnce(segment + rest, |segment|);
    assert (segment + rest)[..|segment|] == segment;
    if rest == "" {
      NothingToSplit();
    } else {
      assert (segment + rest)[|segment| + 1..] == rest[1..];
      SkipsSlash(rest);
    }
  }

  /** Splitting a path gives back its segments. */
  lemma {:induction false} SegmentsOfJoined(segments: seq<string>)
    requires forall s <- segments :: IsSegment(s)
    ensures Segments(Joined(segments)) == segments
  {
    hide Segments, IsSegment;
    if segments == [] {
      assert Segments("") == [] by { NothingToSplit(); }
    } else {
      SegmentsOfJoined(segments[1..]);
      SplitsOne(segments[0], Joined(segments[1..]));
      assert segments == [segments[0]] + segments[1..];
    }
  }

  lemma NothingToSplit()
    ensures Segments("") == []
  {}
}
