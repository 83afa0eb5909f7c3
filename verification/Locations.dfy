/** Message locators: the strict parser and the fetch path it is printed as
    (integrations/workiq/locations.py; percent-encoding as in sections 2.1 and 2.3 of RFC 3986). */
module Locations {
  import opened Basics
  import opened PythonText

  datatype SourceKind = Supplier | Quality

  datatype Location = Location(kind: SourceKind, messageId: string, mailbox: Option<string>, teamId: Option<string>,
                               channelId: Option<string>, tenantId: Option<string>)

  const MAX_LOCATION := 8192

  const MAX_IDENTITY := 2048

  predicate IsLetter(c: char) { 'a' <= c <= 'z' || 'A' <= c <= 'Z' }

  predicate IsDigit(c: char) { '0' <= c <= '9' }

  predicate IsHex(c: char) { IsDigit(c) || 'a' <= c <= 'f' || 'A' <= c <= 'F' }

  predicate Unreserved(c: char) { IsLetter(c) || IsDigit(c) || c in "_.-~" }

  predicate IdentityChar(c: char) { Unreserved(c) || c in "+@=:!" }

  predicate IsIdentity(s: string) {
    1 <= |s| <= MAX_IDENTITY && s != "." && s != ".." && forall c | c in s :: IdentityChar(c)
  }

  // --- Printing ------------------------------------------------------------------------------

  const HEX := "0123456789ABCDEF"

  function EscapeByte(b: nat): string
    requires b < 256
  {
    ['%', HEX[b / 16], HEX[b % 16]]
  }

  function EscapeBytes(bytes: seq<nat>): string
    requires forall i | 0 <= i < |bytes| :: bytes[i] < 256
  {
    if |bytes| == 0 then "" else EscapeByte(bytes[0]) + EscapeBytes(bytes[1..])
  }

  function Utf8(c: char): (r: seq<nat>)
    ensures forall i | 0 <= i < |r| :: r[i] < 256
  {
    var n := c as int;
    if n < 0x80 then [n]
    else if n < 0x800 then [0xC0 + n / 0x40, 0x80 + n % 0x40]
    else if n < 0x10000 then [0xE0 + n / 0x1000, 0x80 + n / 0x40 % 0x40, 0x80 + n % 0x40]
    else [0xF0 + n / 0x40000, 0x80 + n / 0x1000 % 0x40, 0x80 + n / 0x40 % 0x40, 0x80 + n % 0x40]
  }

  function QuoteChar(c: char): string { if Unreserved(c) then [c] else EscapeBytes(Utf8(c)) }

  /** `quote(part, safe="")`. */
  function Quote(s: string): string { if |s| == 0 then "" else QuoteChar(s[0]) + Quote(s[1..]) }

  /** "/" + "/".join(quoted parts), for a nonempty list of parts. */
  function Path(parts: seq<string>): string {
    if |parts| == 0 then "" else "/" + Quote(parts[0]) + Path(parts[1..])
  }

  function Present(part: Option<string>): seq<string> { if part.Some? then [part.value] else [] }

  function PathParts(l: Location): seq<string> {
    match l.kind
    case Supplier =>
      (if l.mailbox == Some("me") then ["me"] else ["users"] + Present(l.mailbox)) + ["messages", l.messageId]
    case Quality =>
      ["teams"] + Present(l.teamId) + ["channels"] + Present(l.channelId) + ["messages", l.messageId]
  }

  function FetchPath(l: Location): string { Path(PathParts(l)) }

  // --- Splitting a URL ----------------------------------------------------------------------------

  datatype Url = Url(scheme: string, netloc: string, path: string, query: string, fragment: string)

  datatype Authority = Authority(username: Option<string>, password: Option<string>, hostname: Option<string>,
                                 port: Option<int>)

  /** How a network location is taken apart; None where the library raises. */
  datatype Environment = Environment(authority: string -> Option<Authority>)

  function Find(s: string, stop: char -> bool): (i: nat)
    ensures i <= |s| && (i < |s| ==> stop(s[i])) && forall k | 0 <= k < i :: !stop(s[k])
  {
    if |s| == 0 || stop(s[0]) then 0
    else
      var i := Find(s[1..], stop);
      assert forall k | 0 <= k < i :: s[1..][k] == s[k + 1];
      i + 1
  }

  function At(c: char): char -> bool { (x: char) => x == c }

  predicate SchemeChar(c: char) { IsLetter(c) || IsDigit(c) || c in "+-." }

  function Lower(s: string): string {
    if |s| == 0 then ""
    else [if 'A' <= s[0] <= 'Z' then (s[0] as int + 32) as char else s[0]] + Lower(s[1..])
  }

  function SplitScheme(s: string): (string, string) {
    var i := Find(s, At(':'));
    if 0 < i < |s| && IsLetter(s[0]) && (forall c | c in s[..i] :: SchemeChar(c)) then (Lower(s[..i]), s[i + 1..])
    else ("", s)
  }

  function SplitNetloc(s: string): (string, string) {
    if |s| >= 2 && s[0] == '/' && s[1] == '/' then
      var i := Find(s[2..], (c: char) => c == '/' || c == '?' || c == '#');
      (s[2..][..i], s[2..][i..])
    else ("", s)
  }

  /** The text before and after the first occurrence of a character. */
  function Cut(s: string, c: char): (string, string) {
    var i := Find(s, At(c));
    if i < |s| then (s[..i], s[i + 1..]) else (s, "")
  }

  /** `urlsplit`, on text without white space or control characters. */
  function UrlSplit(s: string): Url {
    var scheme := SplitScheme(s);
    var netloc := SplitNetloc(scheme.1);
    var fragment := Cut(netloc.1, '#');
    var query := Cut(fragment.0, '?');
    Url(scheme.0, netloc.0, query.0, query.1, fragment.1)
  }

  function Split(s: string, sep: char): (r: seq<string>)
    ensures |r| > 0
  {
    if |s| == 0 then [""]
    else
      var rest := Split(s[1..], sep);
      if s[0] == sep then [""] + rest else [[s[0]] + rest[0]] + rest[1..]
  }

  function HexValue(c: char): nat
    requires IsHex(c)
  {
    if IsDigit(c) then c as int - '0' as int
    else if 'a' <= c <= 'f' then c as int - 'a' as int + 10
    else c as int - 'A' as int + 10
  }

  /** `unquote`. Bytes beyond ASCII become a character that no identity has, as does whatever they encode. */
  function Unquote(s: string): string {
    if |s| == 0 then ""
    else if s[0] == '%' && |s| >= 3 && IsHex(s[1]) && IsHex(s[2]) then
      var b := 16 * HexValue(s[1]) + HexValue(s[2]);
      [if b < 0x80 then b as char else '\U{FFFD}'] + Unquote(s[3..])
    else [s[0]] + Unquote(s[1..])
  }

  /** No per cent sign without two hexadecimal digits. */
  predicate WellEscaped(s: string) {
    forall i | 0 <= i < |s| && s[i] == '%' :: i + 2 < |s| && IsHex(s[i + 1]) && IsHex(s[i + 2])
  }

  function Spaces(s: string): string {
    if |s| == 0 then "" else [if s[0] == '+' then ' ' else s[0]] + Spaces(s[1..])
  }

  /** `parse_qsl(..., keep_blank_values=True, strict_parsing=True)`; None where it raises. */
  function ParseQuery(q: string): Option<seq<(string, string)>> {
    if q == "" then Some([]) else ParseFields(Split(q, '&'))
  }

  function ParseFields(fields: seq<string>): Option<seq<(string, string)>> {
    if |fields| == 0 then Some([])
    else
      var i, rest := Find(fields[0], At('=')), ParseFields(fields[1..]);
      if i == |fields[0]| || rest.None? then None
      else Some([(Unquote(Spaces(fields[0][..i])), Unquote(Spaces(fields[0][i + 1..])))] + rest.value)
  }

  function Get(query: seq<(string, string)>, key: string): Option<string> {
    if |query| == 0 then None else if query[0].0 == key then Some(query[0].1) else Get(query[1..], key)
  }

  predicate KeysAmong(query: seq<(string, string)>, keys: seq<string>) {
    forall i | 0 <= i < |query| :: query[i].0 in keys
  }

  predicate RepeatsKey(query: seq<(string, string)>) { exists i, j | 0 <= i < j < |query| :: query[i].0 == query[j].0 }

  // --- Parsing ---------------------------------------------------------------------------------------

  function NonEmpty(segments: seq<string>): seq<string> {
    if |segments| == 0 then []
    else (if segments[0] == "" then [] else [Unquote(segments[0])]) + NonEmpty(segments[1..])
  }

  predicate DoubleSlash(s: string) { exists i :: 0 <= i < |s| - 1 && s[i] == '/' && s[i + 1] == '/' }

  predicate Printable(s: string) { forall c | c in s :: !IsSpace(c) && c as int >= 32 }

  predicate Base64Char(c: char) { IsLetter(c) || IsDigit(c) || c == '+' || c == '/' }

  /** Base64 text with this many padding characters. */
  predicate Padded(s: string, padding: nat) {
    && padding <= |s| && 1 <= |s| - padding <= MAX_IDENTITY
    && forall i | 0 <= i < |s| :: if i < |s| - padding then Base64Char(s[i]) else s[i] == '='
  }

  predicate IsOwaId(s: string) { Padded(s, 0) || Padded(s, 1) || Padded(s, 2) }

  function RestId(s: string): string {
    if |s| == 0 then "" else [if s[0] == '/' then '-' else if s[0] == '+' then '_' else s[0]] + RestId(s[1..])
  }

  function OwaMessageId(s: string): Option<string> {
    if '/' in s || '+' in s then if IsOwaId(s) && IsIdentity(RestId(s)) then Some(RestId(s)) else None
    else if IsIdentity(s) then Some(s) else None
  }

  predicate IsGuid(s: string) {
    |s| == 36 && forall i | 0 <= i < 36 :: if i in [8, 13, 18, 23] then s[i] == '-' else IsHex(s[i])
  }

  function FromPath(parts: seq<string>): Option<Location> {
    if |parts| == 3 && parts[0] == "me" && parts[1] == "messages" then
      Some(Location(Supplier, parts[2], Some("me"), None, None, None))
    else if |parts| == 4 && parts[0] == "users" && parts[2] == "messages" then
      Some(Location(Supplier, parts[3], Some(parts[1]), None, None, None))
    else if |parts| == 6 && parts[0] == "teams" && parts[2] == "channels" && parts[4] == "messages" then
      Some(Location(Quality, parts[5], None, Some(parts[1]), Some(parts[3]), None))
    else None
  }

  function FromOutlook(parts: seq<string>, query: seq<(string, string)>): Option<Location> {
    if |parts| == 4 && parts[..3] == ["mail", "deeplink", "read"] && query == [] then
      Some(Location(Supplier, parts[3], Some("me"), None, None, None))
    else if parts == ["owa"] && KeysAmong(query, ["ItemID", "exvsurl", "viewmodel", "EntityRepresentationId"])
         && Get(query, "viewmodel") == Some("ReadMessageItem")
         && (Get(query, "exvsurl").None? || Get(query, "exvsurl") == Some("1"))
         && (Get(query, "EntityRepresentationId").None? || IsGuid(Get(query, "EntityRepresentationId").value))
         && Get(query, "ItemID").Some? && OwaMessageId(Get(query, "ItemID").value).Some?
    then Some(Location(Supplier, OwaMessageId(Get(query, "ItemID").value).value, Some("me"), None, None, None))
    else None
  }

  function FromTeams(parts: seq<string>, query: seq<(string, string)>): Option<Location> {
    var team, tenant := Get(query, "groupId"), Get(query, "tenantId");
    var parent, created := Get(query, "parentMessageId"), Get(query, "createdTime");
    if |parts| == 4 && parts[..2] == ["l", "message"]
       && KeysAmong(query, ["groupId", "tenantId", "parentMessageId", "createdTime"])
       && team.Some? && IsIdentity(team.value) && tenant.Some? && IsIdentity(tenant.value)
       && (parent.None? || parent.value == parts[3])
       && (created.None? || (1 <= |created.value| <= 20 && forall c | c in created.value :: IsDigit(c)))
    then Some(Location(Quality, parts[3], None, team, Some(parts[2]), tenant))
    else None
  }

  function ParseParts(url: Url, authority: Authority, parts: seq<string>,
                      query: seq<(string, string)>): Option<Location> {
    if url.scheme == "" && url.netloc == "" && query == [] && |url.path| > 0 && url.path[0] == '/' then FromPath(parts)
    else if url.scheme != "https" then None
    else if authority.hostname == Some("outlook.office.com") || authority.hostname == Some("outlook.office365.com") then
      FromOutlook(parts, query)
    else if authority.hostname == Some("teams.microsoft.com") then FromTeams(parts, query)
    else None
  }

  predicate TrailingSlash(path: string) { |path| > 0 && path[|path| - 1] == '/' && path != "/owa/" }

  predicate PlainAuthority(a: Authority) {
    a.username.None? && a.password.None? && (a.port.None? || a.port == Some(443))
  }

  predicate AllIdentities(parts: seq<string>) { forall p | p in parts :: IsIdentity(p) }

  function ParseUrl(env: Environment, url: Url): Option<Location> {
    var authority := env.authority(url.netloc);
    var parts := NonEmpty(Split(url.path, '/')[1..]);
    var query := ParseQuery(url.query);
    if authority.None? then None
    else if url.fragment != "" || !PlainAuthority(authority.value) then None
    else if !AllIdentities(parts) || DoubleSlash(url.path) || TrailingSlash(url.path) then None
    else if query.None? || RepeatsKey(query.value) then None
    else ParseParts(url, authority.value, parts, query.value)
  }

  function ParseLocation(env: Environment, value: string): Option<Location> {
    if |value| > MAX_LOCATION || !Printable(value) || !WellEscaped(value) then None else ParseUrl(env, UrlSplit(value))
  }

  // --- What the parser accepts ------------------------------------------------------------------------

  /** A locator with the parts its kind has, each of them an identity. */
  predicate Shaped(l: Location) {
    && IsIdentity(l.messageId)
    && match l.kind
       case Supplier => l.mailbox.Some? && IsIdentity(l.mailbox.value) && l.teamId.None? && l.channelId.None?
         && l.tenantId.None?
       case Quality =>
         && l.mailbox.None? && l.teamId.Some? && IsIdentity(l.teamId.value)
         && l.channelId.Some? && IsIdentity(l.channelId.value) && (l.tenantId.Some? ==> IsIdentity(l.tenantId.value))
  }

  lemma PartsAreShaped(parts: seq<string>, query: seq<(string, string)>)
    requires forall i | 0 <= i < |parts| :: IsIdentity(parts[i])
    ensures FromPath(parts).Some? ==> Shaped(FromPath(parts).value)
    ensures FromOutlook(parts, query).Some? ==> Shaped(FromOutlook(parts, query).value)
    ensures FromTeams(parts, query).Some? ==> Shaped(FromTeams(parts, query).value)
  {
    hide IsIdentity, OwaMessageId, KeysAmong, Get, IsGuid;
    WordsAreIdentities();
    OwaIdIsIdentity(query);
  }

  lemma OwaIdIsIdentity(query: seq<(string, string)>)
    ensures Get(query, "ItemID").Some? ==>
      var id := OwaMessageId(Get(query, "ItemID").value); id.Some? ==> IsIdentity(id.value)
  {
    hide Get;
  }

  /** Whatever the text, an accepted locator is complete and made of identities. */
  lemma AcceptedIsShaped(env: Environment, value: string)
    requires ParseLocation(env, value).Some?
    ensures Shaped(ParseLocation(env, value).value)
  {
    hide Shaped, FromPath, FromOutlook, FromTeams, Printable, WellEscaped, IsIdentity;
    var parts := NonEmpty(Split(UrlSplit(value).path, '/')[1..]);
    assert forall i | 0 <= i < |parts| :: parts[i] in parts;
    PartsAreShaped(parts, ParseQuery(UrlSplit(value).query).value);
  }

  // --- Quoting and unquoting ----------------------------------------------------------------------------

  lemma EscapedIdentityChar(c: char)
    requires IdentityChar(c) && !Unreserved(c)
    ensures |QuoteChar(c)| == 3 && QuoteChar(c)[0] == '%' && IsHex(QuoteChar(c)[1]) && IsHex(QuoteChar(c)[2])
    ensures 16 * HexValue(QuoteChar(c)[1]) + HexValue(QuoteChar(c)[2]) == c as int < 0x80
  {
    assert EscapeBytes([]) == "";
    var n := c as int;
    assert Utf8(c) == [n] && [n][1..] == [];
    assert EscapeBytes([n]) == EscapeByte(n) + EscapeBytes([]);
    assert n / 16 < 16;
    HexDigit(n / 16);
    HexDigit(n % 16);
  }

  lemma HexDigit(d: nat)
    requires d < 16
    ensures IsHex(HEX[d]) && HexValue(HEX[d]) == d
  {
  }

  lemma UnquoteChar(c: char, rest: string)
    requires IdentityChar(c)
    ensures Unquote(QuoteChar(c) + rest) == [c] + Unquote(rest)
  {
    var q := QuoteChar(c);
    if Unreserved(c) {
      assert (q + rest)[1..] == rest;
    } else {
      EscapedIdentityChar(c);
      assert (q + rest)[3..] == rest;
    }
  }

  lemma {:induction false} UnquoteQuote(s: string)
    requires forall c | c in s :: IdentityChar(c)
    ensures Unquote(Quote(s)) == s
  {
    if |s| > 0 {
      assert s[0] in s && forall c | c in s[1..] :: c in s;
      UnquoteChar(s[0], Quote(s[1..]));
      UnquoteQuote(s[1..]);
    }
  }

  /** The characters of a printed segment. */
  predicate SegmentChar(c: char) { Unreserved(c) || c == '%' }

  lemma WellEscapedJoins(a: string, b: string)
    requires WellEscaped(a) && WellEscaped(b)
    ensures WellEscaped(a + b)
  {
    forall i | 0 <= i < |a + b| && (a + b)[i] == '%'
      ensures i + 2 < |a + b| && IsHex((a + b)[i + 1]) && IsHex((a + b)[i + 2])
    {
      if i < |a| { assert a[i] == '%'; } else { assert b[i - |a|] == '%'; }
    }
  }

  lemma QuotedChar(c: char)
    requires IdentityChar(c)
    ensures |QuoteChar(c)| > 0 && WellEscaped(QuoteChar(c)) && forall x | x in QuoteChar(c) :: SegmentChar(x)
  {
    var q := QuoteChar(c);
    if Unreserved(c) {
      assert q == [c];
    } else {
      EscapedIdentityChar(c);
      assert q == [q[0], q[1], q[2]];
    }
  }

  lemma {:induction false} QuotedSegment(s: string)
    requires forall c | c in s :: IdentityChar(c)
    ensures (forall c | c in Quote(s) :: SegmentChar(c)) && WellEscaped(Quote(s))
    ensures |s| > 0 ==> |Quote(s)| > 0
  {
    hide IdentityChar, QuoteChar, WellEscaped, SegmentChar;
    if |s| > 0 {
      assert s[0] in s && forall c | c in s[1..] :: c in s;
      QuotedSegment(s[1..]);
      QuotedChar(s[0]);
      WellEscapedJoins(QuoteChar(s[0]), Quote(s[1..]));
    } else {
      NothingEscaped();
    }
  }

  lemma NothingEscaped()
    ensures WellEscaped("")
  {
  }

  // --- The printed path -----------------------------------------------------------------------------------

  predicate PathChar(c: char) { SegmentChar(c) || c == '/' }

  lemma {:induction false} PathText(parts: seq<string>)
    requires AllIdentities(parts)
    ensures (forall c | c in Path(parts) :: PathChar(c)) && WellEscaped(Path(parts)) && !DoubleSlash(Path(parts))
    ensures |parts| > 0 ==>
      |Path(parts)| > 1 && Path(parts)[0] == '/' && Path(parts)[1] != '/' && Path(parts)[|Path(parts)| - 1] != '/'
  {
    hide Quote, QuoteChar;
    if |parts| > 0 {
      assert parts[0] in parts && forall p | p in parts[1..] :: p in parts;
      var q, rest := Quote(parts[0]), Path(parts[1..]);
      QuotedSegment(parts[0]);
      PathText(parts[1..]);
      WellEscapedJoins("/", q);
      WellEscapedJoins("/" + q, rest);
      assert forall i | 0 <= i < |q| :: q[i] in q;
      PathSlashes(q, rest);
    }
  }

  lemma PathSlashes(q: string, rest: string)
    requires |q| > 0 && '/' !in q && !DoubleSlash(rest)
    requires |rest| > 0 ==> |rest| > 1 && rest[1] != '/' && rest[|rest| - 1] != '/'
    ensures !DoubleSlash("/" + q + rest) && ("/" + q + rest)[1] != '/' && ("/" + q + rest)[|q| + |rest|] != '/'
  {
    var s := "/" + q + rest;
    assert forall i | 0 <= i < |q| :: s[i + 1] == q[i] && q[i] in q;
    assert forall i | 0 <= i < |rest| :: s[i + 1 + |q|] == rest[i];
    forall i | 0 <= i < |s| - 1 ensures !(s[i] == '/' && s[i + 1] == '/') {
      if i > |q| { assert !(rest[i - 1 - |q|] == '/' && rest[i - |q|] == '/'); }
    }
  }

  lemma {:induction false} SplitFirst(a: string, b: string, sep: char)
    requires sep !in a
    ensures Split(a, sep) == [a]
    ensures Split(a + [sep] + b, sep) == [a] + Split(b, sep)
  {
    if |a| == 0 {
      assert (a + [sep] + b)[1..] == b;
    } else {
      assert a[0] in a && forall c | c in a[1..] :: c in a;
      assert (a + [sep] + b)[1..] == a[1..] + [sep] + b;
      SplitFirst(a[1..], b, sep);
      assert [a[0]] + a[1..] == a;
    }
  }

  lemma SegmentHasNoSlash(s: string)
    requires IsIdentity(s)
    ensures '/' !in Quote(s) && Quote(s) != ""
  {
    QuotedSegment(s);
  }

  lemma {:induction false} QuotedParts(parts: seq<string>)
    requires AllIdentities(parts) && |parts| > 0
    ensures Split(Quote(parts[0]) + Path(parts[1..]), '/') == Map(Quote, parts)
  {
    hide Quote, Split, IsIdentity;
    assert parts[0] in parts && forall p | p in parts[1..] :: p in parts;
    var q, others := Quote(parts[0]), parts[1..];
    SegmentHasNoSlash(parts[0]);
    if |others| == 0 {
      assert q + Path(others) == q;
      SplitFirst(q, "", '/');
    } else {
      var tail := Quote(others[0]) + Path(others[1..]);
      QuotedParts(others);
      SplitFirst(q, tail, '/');
      assert q + Path(others) == q + "/" + tail;
    }
  }

  lemma SplitPath(parts: seq<string>)
    requires AllIdentities(parts) && |parts| > 0
    ensures Split(Path(parts), '/')[1..] == Map(Quote, parts)
  {
    hide Quote, IsIdentity, AllIdentities, Split;
    QuotedParts(parts);
    var tail := Quote(parts[0]) + Path(parts[1..]);
    assert Path(parts) == "/" + tail by { Regroup("/", Quote(parts[0]), Path(parts[1..])); }
    SplitLeading(tail, '/');
  }

  lemma SplitLeading(tail: string, c: char)
    ensures Split([c] + tail, c)[1..] == Split(tail, c)
  {
    hide Split;
    SplitFirst("", tail, c);
    assert "" + [c] + tail == [c] + tail;
  }

  lemma QuotedIsRecovered(s: string)
    requires IsIdentity(s)
    ensures Quote(s) != "" && Unquote(Quote(s)) == s
  {
    SegmentHasNoSlash(s);
    UnquoteQuote(s);
  }

  lemma {:induction false} PartsRecovered(parts: seq<string>)
    requires AllIdentities(parts)
    ensures NonEmpty(Map(Quote, parts)) == parts
  {
    hide Quote, Unquote, IsIdentity;
    if |parts| > 0 {
      HeadOrTail(parts);
      QuotedIsRecovered(parts[0]);
      PartsRecovered(parts[1..]);
      assert parts == [parts[0]] + parts[1..];
    }
  }

  lemma ShapedParts(l: Location)
    requires Shaped(l)
    ensures AllIdentities(PathParts(l)) && |PathParts(l)| > 0
    ensures FromPath(PathParts(l)) == Some(l.(tenantId := None))
  {
    hide IsIdentity;
    WordsAreIdentities();
  }

  lemma WordsAreIdentities()
    ensures IsIdentity("me") && IsIdentity("users") && IsIdentity("messages")
    ensures IsIdentity("teams") && IsIdentity("channels")
  {
  }

  /** A path of such characters is split into itself: no scheme, host, query or fragment. */
  lemma PathSplits(path: string)
    requires |path| > 1 && path[0] == '/' && path[1] != '/' && forall c | c in path :: PathChar(c) || c == '@'
    ensures UrlSplit(path) == Url("", "", path, "", "") && Printable(path)
  {
    assert forall k | 0 <= k < |path| :: path[k] in path;
    assert Find(path, At(':')) == |path|;
    assert Find(path, At('#')) == |path|;
    assert Find(path, At('?')) == |path|;
  }

  // --- The round trip ------------------------------------------------------------------------------------------

  /** An empty network location names no user, host or port. */
  ghost predicate NoAuthority(env: Environment) { env.authority("") == Some(Authority(None, None, None, None)) }

  lemma PathIsParsed(env: Environment, path: string, parts: seq<string>)
    requires NoAuthority(env) && AllIdentities(parts) && !DoubleSlash(path)
    requires |path| > 0 && path[0] == '/' && path[|path| - 1] != '/'
    requires NonEmpty(Split(path, '/')[1..]) == parts
    ensures ParseUrl(env, Url("", "", path, "", "")) == FromPath(parts)
  {
    hide DoubleSlash, NonEmpty, Split, AllIdentities, FromPath, FromOutlook, FromTeams;
    assert ParseQuery("") == Some([]);
  }

  lemma PrintedIsParsed(env: Environment, l: Location)
    requires NoAuthority(env) && Shaped(l)
    ensures ParseLocation(env, FetchPath(l)) == if |FetchPath(l)| <= 8192 then Some(l.(tenantId := None)) else None
  {
    hide Shaped, FromPath, AllIdentities, PathParts, ParseUrl, UrlSplit, DoubleSlash, Printable, WellEscaped, Split,
      NonEmpty;
    var parts, path := PathParts(l), FetchPath(l);
    ShapedParts(l);
    PathText(parts);
    PathSplits(path);
    SplitPath(parts);
    PartsRecovered(parts);
    PathIsParsed(env, path, parts);
  }

  /** For every text the parser accepts, the locator's fetch path is accepted exactly when it fits the length
      limit, as the same locator without its tenant; and printing that gives the same path again. */
  lemma RoundTrip(env: Environment, value: string)
    requires NoAuthority(env) && ParseLocation(env, value).Some?
    ensures var l := ParseLocation(env, value).value;
      && ParseLocation(env, FetchPath(l)) == (if |FetchPath(l)| <= 8192 then Some(l.(tenantId := None)) else None)
      && FetchPath(l.(tenantId := None)) == FetchPath(l)
  {
    AcceptedIsShaped(env, value);
    PrintedIsParsed(env, ParseLocation(env, value).value);
  }

  /** Different locators never share a fetch path, however long it is. */
  lemma PathsTellLocatorsApart(a: Location, b: Location)
    requires Shaped(a) && Shaped(b) && FetchPath(a) == FetchPath(b)
    ensures a.(tenantId := None) == b.(tenantId := None)
  {
    ShapedParts(a);
    ShapedParts(b);
    SplitPath(PathParts(a));
    SplitPath(PathParts(b));
    PartsRecovered(PathParts(a));
    PartsRecovered(PathParts(b));
  }

  // --- A path that is too long to be parsed again -----------------------------------------------------------

  lemma {:induction false} UnquotePlain(s: string)
    requires '%' !in s
    ensures Unquote(s) == s
  {
    if |s| > 0 {
      assert s[0] in s && forall c | c in s[1..] :: c in s;
      UnquotePlain(s[1..]);
    }
  }

  lemma {:induction false} QuotedLength(s: string)
    requires forall c | c in s :: c == '@'
    ensures |Quote(s)| == 3 * |s|
  {
    if |s| > 0 {
      assert s[0] in s && forall c | c in s[1..] :: c in s;
      EscapedIdentityChar('@');
      QuotedLength(s[1..]);
    }
  }

  lemma AtSigns(m: string)
    requires m == seq(MAX_IDENTITY, i => '@')
    ensures IsIdentity(m) && forall c | c in m :: c == '@'
  {
    assert |m| == MAX_IDENTITY;
  }

  function RawPath(m: string): string { "/users/" + m + "/messages/" + m }

  lemma RawPathParts(m: string)
    requires |m| > 0 && forall c | c in m :: c == '@'
    ensures NonEmpty(Split(RawPath(m), '/')[1..]) == ["users", m, "messages", m]
  {
    hide Unquote, NonEmpty;
    RawPathSegments(m);
    UnquotePlain(m);
    UnquotePlain("users");
    UnquotePlain("messages");
    NonEmptyFour("users", m, "messages", m);
  }

  lemma RawPathSegments(m: string)
    requires '/' !in m
    ensures Split(RawPath(m), '/')[1..] == ["users", m, "messages", m]
  {
    hide Split;
    var rest1 := "messages" + "/" + m;
    var rest2 := m + "/" + rest1;
    var rest3 := "users" + "/" + rest2;
    SplitFirst(m, "", '/');
    SplitFirst("messages", m, '/');
    SplitFirst(m, rest1, '/');
    SplitFirst("users", rest2, '/');
    SplitFirst("", rest3, '/');
    assert RawPath(m) == "" + "/" + rest3;
  }

  lemma NonEmptyFour(a: string, b: string, c: string, d: string)
    requires a != "" && b != "" && c != "" && d != ""
    ensures NonEmpty([a, b, c, d]) == [Unquote(a), Unquote(b), Unquote(c), Unquote(d)]
  {
    hide Unquote;
    assert [a, b, c, d][1..] == [b, c, d] && [b, c, d][1..] == [c, d] && [c, d][1..] == [d] && [d][1..] == [];
    assert NonEmpty([d]) == [Unquote(d)];
    assert NonEmpty([c, d]) == [Unquote(c), Unquote(d)];
  }

  lemma RawPathIsParsed(env: Environment, m: string)
    requires NoAuthority(env) && IsIdentity(m) && forall c | c in m :: c == '@'
    ensures ParseLocation(env, RawPath(m)) == Some(Location(Supplier, m, Some(m), None, None, None))
  {
    hide ParseUrl, NonEmpty, Split, UrlSplit, Printable, WellEscaped, DoubleSlash;
    var path := RawPath(m);
    RawPathText(m);
    PathSplits(path);
    RawPathParts(m);
    PathIsParsed(env, path, ["users", m, "messages", m]);
  }

  lemma RawPathText(m: string)
    requires |m| > 0 && forall c | c in m :: c == '@'
    ensures var path := RawPath(m);
      && path[0] == '/' && path[1] == 'u' && path[|path| - 1] != '/' && !DoubleSlash(path) && WellEscaped(path)
      && forall c | c in path :: PathChar(c) || c == '@'
  {
    var path, n := RawPath(m), |m|;
    assert forall i | 0 <= i < n :: m[i] in m;
    assert forall i | 7 <= i < 7 + n :: path[i] == m[i - 7];
    assert forall i | 17 + n <= i < |path| :: path[i] == m[i - 17 - n];
    assert path[..7] == "/users/" && path[7 + n..17 + n] == "/messages/";
    assert forall i | 0 <= i < 7 :: path[i] == "/users/"[i];
    assert forall i | 7 + n <= i < 17 + n :: path[i] == "/messages/"[i - 7 - n];
    forall i | 0 <= i < |path|
      ensures (PathChar(path[i]) || path[i] == '@') && path[i] != '%'
      ensures path[i] == '/' ==> i == 0 || i == 6 || i == 7 + n || i == 16 + n
    {
      assert path[i] == (if i < 7 then "/users/"[i] else if i < 7 + n then '@'
                         else if i < 17 + n then "/messages/"[i - 7 - n] else '@');
    }
  }

  /** The limit matters: here is an accepted text whose locator prints to a path that is rejected. */
  lemma SomePathsAreTooLong(env: Environment) returns (value: string)
    requires NoAuthority(env)
    ensures ParseLocation(env, value).Some?
    ensures ParseLocation(env, FetchPath(ParseLocation(env, value).value)) == None
  {
    var m := seq(MAX_IDENTITY, i => '@');
    AtSigns(m);
    value := RawPath(m);
    RawPathIsParsed(env, m);
    var l := Location(Supplier, m, Some(m), None, None, None);
    QuotedLength(m);
    LongPath(m, l);
    PrintedIsParsed(env, l);
  }

  lemma LongPath(m: string, l: Location)
    requires l == Location(Supplier, m, Some(m), None, None, None) && m != "me" && |Quote(m)| == 3 * MAX_IDENTITY
    ensures |FetchPath(l)| > MAX_LOCATION
  {
    hide Quote;
    var parts := ["users", m, "messages", m];
    assert PathParts(l) == parts;
    assert parts[1..] == [m, "messages", m] && [m, "messages", m][1..] == ["messages", m]
      && ["messages", m][1..] == [m];
    assert |Path([m])| >= 3 * MAX_IDENTITY;
    assert |Path(["messages", m])| >= 3 * MAX_IDENTITY;
    assert |Path([m, "messages", m])| >= 6 * MAX_IDENTITY;
  }
}
