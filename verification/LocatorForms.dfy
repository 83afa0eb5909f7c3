/** The texts a locator is printed as and read from: the fetch paths, the Teams message link, the Outlook links; and
    exactly which texts are accepted (integrations/workiq/locations.py:19-167). */
module LocatorForms {
  import opened Basics
  import opened PythonText
  import opened Locations

  // --- The fetch paths ---------------------------------------------------------------------------

  predicate PlainWord(s: string) { forall c | c in s :: Unreserved(c) }

  lemma {:induction false} WordIsQuoted(s: string)
    requires PlainWord(s)
    ensures Quote(s) == s
  {
    if |s| > 0 {
      assert s[0] in s && forall c | c in s[1..] :: c in s;
      WordIsQuoted(s[1..]);
    }
  }

  lemma PathOne(a: string)
    ensures Path([a]) == "/" + Quote(a)
  {
    assert [a][1..] == [] && Path([]) == "";
  }

  lemma PathNext(a: string, rest: seq<string>)
    ensures Path([a] + rest) == "/" + Quote(a) + Path(rest)
  {
    assert ([a] + rest)[1..] == rest;
  }

  lemma Words()
    ensures PlainWord("me") && PlainWord("users") && PlainWord("messages")
    ensures PlainWord("teams") && PlainWord("channels")
    ensures PlainWord("l") && PlainWord("message") && PlainWord("mail") && PlainWord("deeplink") && PlainWord("read")
  {
  }

  lemma MePath(m: string)
    ensures Path(["me", "messages", m]) == "/me/messages/" + Quote(m)
  {
    hide Quote, Path;
    Words();
    WordIsQuoted("me");
    WordIsQuoted("messages");
    PathOne(m);
    PathNext("messages", [m]);
    PathNext("me", ["messages", m]);
    assert ["me"] + ["messages", m] == ["me", "messages", m] && ["messages"] + [m] == ["messages", m];
  }

  lemma UserPath(u: string, m: string)
    ensures Path(["users", u, "messages", m]) == "/users/" + Quote(u) + "/messages/" + Quote(m)
  {
    hide Quote, Path;
    Words();
    WordIsQuoted("users");
    WordIsQuoted("messages");
    PathOne(m);
    PathNext("messages", [m]);
    PathNext(u, ["messages", m]);
    PathNext("users", [u, "messages", m]);
    assert ["users"] + [u, "messages", m] == ["users", u, "messages", m] && [u] + ["messages", m] == [u, "messages", m];
    assert ["messages"] + [m] == ["messages", m];
  }

  lemma ChannelPath(t: string, c: string, m: string)
    ensures Path(["teams", t, "channels", c, "messages", m])
         == "/teams/" + Quote(t) + "/channels/" + Quote(c) + "/messages/" + Quote(m)
  {
    hide Quote, Path;
    Words();
    WordIsQuoted("teams");
    WordIsQuoted("channels");
    WordIsQuoted("messages");
    PathOne(m);
    PathNext("messages", [m]);
    PathNext(c, ["messages", m]);
    PathNext("channels", [c, "messages", m]);
    PathNext(t, ["channels", c, "messages", m]);
    PathNext("teams", [t, "channels", c, "messages", m]);
    assert ["teams"] + [t, "channels", c, "messages", m] == ["teams", t, "channels", c, "messages", m];
    assert [t] + ["channels", c, "messages", m] == [t, "channels", c, "messages", m];
    assert ["channels"] + [c, "messages", m] == ["channels", c, "messages", m];
    assert [c] + ["messages", m] == [c, "messages", m] && ["messages"] + [m] == ["messages", m];
  }

  /** A mailbox message is fetched from its mailbox, the signed-in one under its own name; a channel message from its
      team and channel. */
  lemma FetchPathIs(l: Location)
    requires Shaped(l)
    ensures FetchPath(l) ==
      match l.kind
      case Supplier =>
        if l.mailbox.value == "me" then "/me/messages/" + Quote(l.messageId)
        else "/users/" + Quote(l.mailbox.value) + "/messages/" + Quote(l.messageId)
      case Quality =>
        "/teams/" + Quote(l.teamId.value) + "/channels/" + Quote(l.channelId.value) + "/messages/" + Quote(l.messageId)
  {
    hide Quote, Path, IsIdentity;
    match l.kind {
      case Supplier =>
        if l.mailbox.value == "me" {
          MePath(l.messageId);
          assert PathParts(l) == ["me", "messages", l.messageId];
        } else {
          UserPath(l.mailbox.value, l.messageId);
          assert PathParts(l) == ["users", l.mailbox.value, "messages", l.messageId];
        }
      case Quality =>
        ChannelPath(l.teamId.value, l.channelId.value, l.messageId);
        assert PathParts(l) == ["teams", l.teamId.value, "channels", l.channelId.value, "messages", l.messageId];
    }
  }

  // --- Taking a link apart ---------------------------------------------------------------------------

  lemma FindsFirst(a: string, c: char, b: string)
    requires c !in a
    ensures Find(a + [c] + b, At(c)) == |a|
  {
    var s := a + [c] + b;
    forall k | 0 <= k < |a| ensures s[k] != c { assert s[k] == a[k] && a[k] in a; }
    assert s[|a|] == c;
  }

  lemma FindsNone(a: string, c: char)
    requires c !in a
    ensures Find(a, At(c)) == |a|
  {
    forall k | 0 <= k < |a| ensures a[k] != c { assert a[k] in a; }
  }

  lemma CutsAt(a: string, c: char, b: string)
    requires c !in a
    ensures Cut(a + [c] + b, c) == (a, b)
  {
    FindsFirst(a, c, b);
    assert (a + [c] + b)[..|a|] == a && (a + [c] + b)[|a| + 1..] == b;
  }

  lemma CutsNothing(a: string, c: char)
    requires c !in a
    ensures Cut(a, c) == (a, "")
  {
    FindsNone(a, c);
  }

  lemma HttpsIsScheme(rest: string)
    ensures SplitScheme("https:" + rest) == ("https", rest)
  {
    var s := "https:" + rest;
    assert s == "https" + [':'] + rest;
    FindsFirst("https", ':', rest);
    assert s[..5] == "https" && s[6..] == rest;
    HttpsIsLower();
  }

  lemma HttpsIsLower()
    ensures Lower("https") == "https"
  {
    LowerIsLower("https");
  }

  lemma {:induction false} LowerIsLower(s: string)
    requires forall c | c in s :: !('A' <= c <= 'Z')
    ensures Lower(s) == s
  {
    if |s| > 0 {
      assert s[0] in s && forall c | c in s[1..] :: c in s;
      LowerIsLower(s[1..]);
    }
  }

  lemma NetlocIsFirst(netloc: string, tail: string)
    requires |tail| > 0 && tail[0] == '/' && '/' !in netloc && '?' !in netloc && '#' !in netloc
    ensures SplitNetloc("//" + netloc + tail) == (netloc, tail)
  {
    var s := "//" + netloc + tail;
    var rest := netloc + tail;
    assert s[2..] == rest;
    forall k | 0 <= k < |netloc| ensures rest[k] != '/' && rest[k] != '?' && rest[k] != '#' {
      assert rest[k] == netloc[k] && netloc[k] in netloc;
    }
    assert rest[|netloc|] == '/';
    assert rest[..|netloc|] == netloc && rest[|netloc|..] == tail;
  }

  /** An https link is split into its host, path and query. */
  lemma LinkSplits(netloc: string, path: string, query: string)
    requires '/' !in netloc && '?' !in netloc && '#' !in netloc
    requires |path| > 0 && path[0] == '/' && '?' !in path && '#' !in path && '#' !in query
    ensures UrlSplit("https://" + netloc + path + "?" + query) == Url("https", netloc, path, query, "")
    ensures UrlSplit("https://" + netloc + path) == Url("https", netloc, path, "", "")
  {
    hide SplitScheme, SplitNetloc, Cut;
    var tail := path + "?" + query;
    assert "https://" + netloc + tail == "https:" + ("//" + netloc + tail);
    assert "https://" + netloc + path + "?" + query == "https://" + netloc + tail;
    assert "https://" + netloc + path == "https:" + ("//" + netloc + path);
    HttpsIsScheme("//" + netloc + tail);
    HttpsIsScheme("//" + netloc + path);
    NetlocIsFirst(netloc, tail);
    NetlocIsFirst(netloc, path);
    assert '#' !in tail;
    CutsNothing(tail, '#');
    CutsNothing(path, '#');
    CutsNothing(path, '?');
    assert tail == path + ['?'] + query;
    CutsAt(path, '?', query);
  }

  // --- Queries ------------------------------------------------------------------------------------------

  /** ASCII without space or control characters. */
  predicate Ascii(s: string) { forall c | c in s :: 0x20 < c as int < 0x7F }

  lemma EscapedAscii(c: char)
    requires 0x20 < c as int < 0x7F && !Unreserved(c)
    ensures |QuoteChar(c)| == 3 && QuoteChar(c)[0] == '%' && IsHex(QuoteChar(c)[1]) && IsHex(QuoteChar(c)[2])
    ensures 16 * HexValue(QuoteChar(c)[1]) + HexValue(QuoteChar(c)[2]) == c as int
  {
    assert EscapeBytes([]) == "";
    var n := c as int;
    assert Utf8(c) == [n] && [n][1..] == [];
    assert EscapeBytes([n]) == EscapeByte(n) + EscapeBytes([]);
    HexDigit(n / 16);
    HexDigit(n % 16);
  }

  /** Quoting leaves only characters that no query separates by, and is undone by unquoting. */
  lemma {:induction false} QuotedAscii(s: string)
    requires Ascii(s)
    ensures (forall c | c in Quote(s) :: SegmentChar(c)) && WellEscaped(Quote(s)) && Unquote(Quote(s)) == s
  {
    hide WellEscaped, QuoteChar, SegmentChar;
    if |s| == 0 {
      NothingEscaped();
    } else {
      assert s[0] in s && forall c | c in s[1..] :: c in s;
      var q, rest := QuoteChar(s[0]), Quote(s[1..]);
      QuotedAscii(s[1..]);
      OneEscape(s[0], rest);
      WellEscapedJoins(q, rest);
    }
  }

  lemma OneEscape(c: char, rest: string)
    requires 0x20 < c as int < 0x7F
    ensures WellEscaped(QuoteChar(c)) && forall x | x in QuoteChar(c) :: SegmentChar(x)
    ensures Unquote(QuoteChar(c) + rest) == [c] + Unquote(rest)
  {
    var q := QuoteChar(c);
    if Unreserved(c) {
      assert q == [c] && (q + rest)[1..] == rest;
    } else {
      EscapedAscii(c);
      assert q == [q[0], q[1], q[2]] && (q + rest)[3..] == rest;
    }
  }

  lemma {:induction false} NoPluses(s: string)
    requires '+' !in s
    ensures Spaces(s) == s
  {
    if |s| > 0 {
      assert s[0] in s && forall c | c in s[1..] :: c in s;
      NoPluses(s[1..]);
    }
  }

  /** The text of a field: its name, and its value quoted. */
  function Field(name: string, value: string): string { name + "=" + Quote(value) }

  lemma FieldText(name: string, value: string)
    requires PlainWord(name) && Ascii(value)
    ensures WellEscaped(Field(name, value)) && forall c | c in Field(name, value) :: SegmentChar(c) || c == '='
    ensures |Field(name, value)| > 0
  {
    hide Quote, Unquote, WellEscaped;
    QuotedAscii(value);
    PlainIsEscaped(name + "=");
    WellEscapedJoins(name + "=", Quote(value));
  }

  lemma FieldParts(name: string, value: string)
    requires PlainWord(name) && Ascii(value)
    ensures var field, i := Field(name, value), Find(Field(name, value), At('='));
      i == |name| < |field| && field[..i] == name && field[i + 1..] == Quote(value)
  {
    hide Quote;
    var field, q := Field(name, value), Quote(value);
    assert field == name + ['='] + q;
    FindsFirst(name, '=', q);
    assert field[..|name|] == name && field[|name| + 1..] == q;
  }

  lemma WordIsRead(s: string)
    requires PlainWord(s)
    ensures Unquote(Spaces(s)) == s
  {
    NoPluses(s);
    UnquotePlain(s);
  }

  lemma ValueIsRead(s: string)
    requires Ascii(s)
    ensures Unquote(Spaces(Quote(s))) == s
  {
    hide Quote, Unquote, Spaces, Ascii, WellEscaped;
    QuotedAscii(s);
    NoPluses(Quote(s));
  }

  /** A name and a quoted value are one field, read back as they were. */
  lemma FieldIsRead(name: string, value: string, later: seq<string>)
    requires PlainWord(name) && Ascii(value) && ParseFields(later).Some?
    ensures ParseFields([Field(name, value)] + later) == Some([(name, value)] + ParseFields(later).value)
  {
    hide Quote, Unquote, Spaces, Field, PlainWord, Ascii;
    FieldParts(name, value);
    FieldText(name, value);
    WordIsRead(name);
    ValueIsRead(value);
    assert ([Field(name, value)] + later)[1..] == later;
  }

  lemma PlainIsEscaped(s: string)
    requires '%' !in s
    ensures WellEscaped(s)
  {
  }

  lemma FieldStandsAlone(name: string, value: string)
    requires PlainWord(name) && Ascii(value)
    ensures '&' !in Field(name, value) && '#' !in Field(name, value)
  {
    hide Field;
    FieldText(name, value);
  }

  /** Two fields are read as two. */
  lemma TwoFieldsAreRead(a: string, x: string, b: string, y: string)
    requires PlainWord(a) && Ascii(x) && PlainWord(b) && Ascii(y)
    ensures ParseQuery(Field(a, x) + "&" + Field(b, y)) == Some([(a, x), (b, y)])
  {
    hide Field, Split;
    var f, g := Field(a, x), Field(b, y);
    FieldStandsAlone(a, x);
    FieldStandsAlone(b, y);
    SplitFirst(f, g, '&');
    SplitFirst(g, "", '&');
    assert f + "&" + g == f + ['&'] + g;
    assert ParseFields([]) == Some([]);
    FieldIsRead(b, y, []);
    assert [g] + [] == [g] && [(b, y)] + [] == [(b, y)];
    FieldIsRead(a, x, [g]);
    assert [f] + [g] == [f, g] && [(a, x)] + [(b, y)] == [(a, x), (b, y)];
  }

  // --- The links --------------------------------------------------------------------------------------

  /** The library takes the host's name for what it is: no user, no port. */
  ghost predicate NamesHost(env: Environment, host: string) {
    env.authority(host) == Some(Authority(None, None, Some(host), None))
  }

  predicate HostName(host: string) { forall c | c in host :: Unreserved(c) }

  /** A path that the parser takes for these parts. */
  ghost predicate PathOf(path: string, parts: seq<string>) {
    && |path| > 0 && path[0] == '/' && WellEscaped(path) && (forall c | c in path :: PathChar(c))
    && !DoubleSlash(path) && !TrailingSlash(path) && AllIdentities(parts) && NonEmpty(Split(path, '/')[1..]) == parts
  }

  lemma PrintedIsPathOf(parts: seq<string>)
    requires |parts| > 0 && AllIdentities(parts)
    ensures PathOf(Path(parts), parts)
  {
    hide Path, AllIdentities, Split, NonEmpty, WellEscaped, DoubleSlash;
    PathText(parts);
    SplitPath(parts);
    PartsRecovered(parts);
  }

  /** The text of a link is printable, well escaped, and taken apart into its host, its parts and its fields. */
  lemma LinkIsTakenApart(env: Environment, host: string, path: string, parts: seq<string>, query: string)
    requires NamesHost(env, host) && HostName(host) && PathOf(path, parts)
    requires WellEscaped(query) && forall c | c in query :: SegmentChar(c) || c == '=' || c == '&'
    requires ParseQuery(query).Some? && !RepeatsKey(ParseQuery(query).value)
    ensures var text := "https://" + host + path + "?" + query;
      ParseLocation(env, text) ==
        if |text| > 8192 then None
        else ParseParts(Url("https", host, path, query, ""), env.authority(host).value, parts, ParseQuery(query).value)
  {
    hide Path, AllIdentities, ParseQuery, RepeatsKey, Split, NonEmpty, ParseParts, UrlSplit, WellEscaped, DoubleSlash,
      Printable, TrailingSlash;
    LinkText(host, path, query);
    LinkSplits(host, path, query);
  }

  lemma PlainLinkIsTakenApart(env: Environment, host: string, path: string, parts: seq<string>)
    requires NamesHost(env, host) && HostName(host) && PathOf(path, parts)
    ensures var text := "https://" + host + path;
      ParseLocation(env, text) ==
        if |text| > 8192 then None
        else ParseParts(Url("https", host, path, "", ""), env.authority(host).value, parts, [])
  {
    hide Path, AllIdentities, ParseQuery, Split, NonEmpty, ParseParts, UrlSplit, WellEscaped, DoubleSlash, Printable,
      TrailingSlash, RepeatsKey;
    NothingAsked();
    NothingEscaped();
    LinkText(host, path, "");
    LinkSplits(host, path, "");
  }

  lemma NothingAsked()
    ensures ParseQuery("") == Some([]) && !RepeatsKey([])
  {
  }

  lemma LinkText(host: string, path: string, query: string)
    requires HostName(host) && WellEscaped(path) && WellEscaped(query)
    requires forall c | c in path :: PathChar(c)
    requires forall c | c in query :: SegmentChar(c) || c == '=' || c == '&'
    ensures var text := "https://" + host + path + "?" + query; Printable(text) && WellEscaped(text)
    ensures Printable("https://" + host + path) && WellEscaped("https://" + host + path)
  {
    var start, end := "https://" + host, "?" + query;
    PlainIsEscaped(start);
    PlainIsEscaped("?");
    WellEscapedJoins(start, path);
    WellEscapedJoins("?", query);
    WellEscapedJoins(start + path, end);
    assert start + path + end == "https://" + host + path + "?" + query;
    assert forall c | c in "https://" :: !IsSpace(c) && c as int >= 32;
  }

  lemma TwoFieldsText(a: string, x: string, b: string, y: string)
    requires PlainWord(a) && Ascii(x) && PlainWord(b) && Ascii(y)
    ensures var query := Field(a, x) + "&" + Field(b, y);
      WellEscaped(query) && forall c | c in query :: SegmentChar(c) || c == '=' || c == '&'
  {
    hide Field, WellEscaped;
    FieldText(a, x);
    FieldText(b, y);
    PlainIsEscaped("&");
    WellEscapedJoins(Field(a, x), "&");
    WellEscapedJoins(Field(a, x) + "&", Field(b, y));
  }

  lemma IdentityIsAscii(s: string)
    requires IsIdentity(s)
    ensures Ascii(s)
  {
  }

  lemma HostsAre()
    ensures HostName("teams.microsoft.com") && HostName("outlook.office.com") && HostName("outlook.office365.com")
  {
  }

  lemma MessagePath(c: string, m: string)
    ensures Path(["l", "message", c, m]) == "/l/message/" + Quote(c) + "/" + Quote(m)
  {
    hide Quote, Path;
    Words();
    WordIsQuoted("l");
    WordIsQuoted("message");
    PathOne(m);
    PathNext(c, [m]);
    PathNext("message", [c, m]);
    PathNext("l", ["message", c, m]);
    assert ["l"] + ["message", c, m] == ["l", "message", c, m] && ["message"] + [c, m] == ["message", c, m];
    assert [c] + [m] == [c, m];
  }

  lemma TeamsParts(parts: seq<string>, t: string, n: string)
    requires |parts| == 4 && parts[0] == "l" && parts[1] == "message" && IsIdentity(t) && IsIdentity(n)
    ensures FromTeams(parts, [("groupId", t), ("tenantId", n)])
         == Some(Location(Quality, parts[3], None, Some(t), Some(parts[2]), Some(n)))
    ensures !RepeatsKey([("groupId", t), ("tenantId", n)])
  {
    hide IsIdentity, Get;
    FourNames();
    GetOfTwo("groupId", t, "tenantId", n, "groupId");
    GetOfTwo("groupId", t, "tenantId", n, "tenantId");
    GetOfTwo("groupId", t, "tenantId", n, "parentMessageId");
    GetOfTwo("groupId", t, "tenantId", n, "createdTime");
    assert parts[..2] == ["l", "message"];
  }

  lemma FourNames()
    ensures "groupId" != "tenantId" && "parentMessageId" != "groupId" && "parentMessageId" != "tenantId"
    ensures "createdTime" != "groupId" && "createdTime" != "tenantId"
  {
    assert "groupId"[0] == 'g' && "tenantId"[0] == 't' && "parentMessageId"[0] == 'p' && "createdTime"[0] == 'c';
  }

  lemma GetOfTwo(a: string, x: string, b: string, y: string, key: string)
    ensures Get([(a, x), (b, y)], key) == if key == a then Some(x) else if key == b then Some(y) else None
  {
    var query := [(a, x), (b, y)];
    assert query[1..] == [(b, y)] && [(b, y)][1..] == [] && Get([], key) == None;
  }

  function TeamsLink(team: string, tenant: string, channel: string, message: string): string {
    "https://" + "teams.microsoft.com" + ("/l/message/" + Quote(channel) + "/" + Quote(message)) + "?"
    + (Field("groupId", team) + "&" + Field("tenantId", tenant))
  }

  /** A Teams message link names the channel, then the message, and in its fields the team and the tenant. */
  lemma TeamsLinkIsRead(env: Environment, team: string, tenant: string, channel: string, message: string)
    requires NamesHost(env, "teams.microsoft.com")
    requires IsIdentity(team) && IsIdentity(tenant) && IsIdentity(channel) && IsIdentity(message)
    ensures var text := TeamsLink(team, tenant, channel, message);
      ParseLocation(env, text) ==
        if |text| > 8192 then None
        else Some(Location(Quality, message, None, Some(team), Some(channel), Some(tenant)))
  {
    hide Quote, Path, ParseLocation, ParseQuery, RepeatsKey, FromTeams, IsIdentity, WellEscaped, PathOf, Ascii,
      PlainWord, Field, HostName, SegmentChar;
    var parts := ["l", "message", channel, message];
    var query := Field("groupId", team) + "&" + Field("tenantId", tenant);
    var path, host := Path(parts), "teams.microsoft.com";
    LinkWords();
    HostsAre();
    IdentityIsAscii(team);
    IdentityIsAscii(tenant);
    TwoFieldsAreRead("groupId", team, "tenantId", tenant);
    TwoFieldsText("groupId", team, "tenantId", tenant);
    TeamsParts(parts, team, tenant);
    assert AllIdentities(parts);
    PrintedIsPathOf(parts);
    LinkIsTakenApart(env, host, path, parts, query);
    MessagePath(channel, message);
  }

  lemma LinkWords()
    ensures IsIdentity("l") && IsIdentity("message")
    ensures IsIdentity("mail") && IsIdentity("deeplink") && IsIdentity("read") && IsIdentity("owa")
    ensures PlainWord("groupId") && PlainWord("tenantId") && PlainWord("ItemID")
    ensures PlainWord("viewmodel") && IsIdentity("ReadMessageItem")
  {
  }

  // --- Outlook links ------------------------------------------------------------------------------------

  predicate OutlookHost(host: string) { host == "outlook.office.com" || host == "outlook.office365.com" }

  lemma ReadPath(m: string)
    ensures Path(["mail", "deeplink", "read", m]) == "/mail/deeplink/read/" + Quote(m)
  {
    hide Quote, Path;
    Words();
    WordIsQuoted("mail");
    WordIsQuoted("deeplink");
    WordIsQuoted("read");
    PathOne(m);
    PathNext("read", [m]);
    PathNext("deeplink", ["read", m]);
    PathNext("mail", ["deeplink", "read", m]);
    assert ["mail"] + ["deeplink", "read", m] == ["mail", "deeplink", "read", m];
    assert ["deeplink"] + ["read", m] == ["deeplink", "read", m] && ["read"] + [m] == ["read", m];
  }

  /** An Outlook read link names a message of the signed-in mailbox. */
  lemma ReadLinkIsRead(env: Environment, host: string, message: string)
    requires OutlookHost(host) && NamesHost(env, host) && IsIdentity(message)
    ensures var text := "https://" + host + ("/mail/deeplink/read/" + Quote(message));
      ParseLocation(env, text) ==
        if |text| > 8192 then None else Some(Location(Supplier, message, Some("me"), None, None, None))
  {
    hide Quote, Path, ParseLocation, IsIdentity, PathOf, HostName;
    var parts := ["mail", "deeplink", "read", message];
    LinkWords();
    HostsAre();
    ReadPath(message);
    assert AllIdentities(parts);
    PrintedIsPathOf(parts);
    PlainLinkIsTakenApart(env, host, Path(parts), parts);
    assert parts[..3] == ["mail", "deeplink", "read"];
  }

  /** The message id in a web link, as the service's own paths write it: hyphens for slashes, underscores for pluses. */
  function RestChar(c: char): char { if c == '/' then '-' else if c == '+' then '_' else c }

  lemma {:induction false} RestIdIs(s: string)
    ensures |RestId(s)| == |s| && forall i | 0 <= i < |s| :: RestId(s)[i] == RestChar(s[i])
  {
    if |s| > 0 { RestIdIs(s[1..]); }
  }

  lemma OwaPathOf()
    ensures PathOf("/owa/", ["owa"])
  {
    hide Split, Unquote, NonEmpty, IsIdentity;
    LinkWords();
    OwaSplits();
    UnquotePlain("owa");
    OwaSegments();
  }

  lemma OwaSplits()
    ensures Split("/owa/", '/')[1..] == ["owa", ""]
  {
    assert Split("", '/') == [""];
    hide Split;
    assert "/owa/" == "" + "/" + "owa/" && "owa/" == "owa" + "/" + "";
    SplitFirst("", "owa/", '/');
    SplitFirst("owa", "", '/');
  }

  lemma OwaSegments()
    requires Unquote("owa") == "owa"
    ensures NonEmpty(["owa", ""]) == ["owa"]
  {
    assert ["owa", ""][1..] == [""] && [""][1..] == [];
    assert NonEmpty([""]) == [];
  }

  lemma OwaParts(id: string)
    requires OwaMessageId(id).Some?
    ensures var query := [("ItemID", id), ("viewmodel", "ReadMessageItem")];
      && !RepeatsKey(query)
      && FromOutlook(["owa"], query)
         == Some(Location(Supplier, OwaMessageId(id).value, Some("me"), None, None, None))
  {
    hide IsIdentity, Get, OwaMessageId;
    OwaNames();
    GetOfTwo("ItemID", id, "viewmodel", "ReadMessageItem", "ItemID");
    GetOfTwo("ItemID", id, "viewmodel", "ReadMessageItem", "viewmodel");
    GetOfTwo("ItemID", id, "viewmodel", "ReadMessageItem", "exvsurl");
    GetOfTwo("ItemID", id, "viewmodel", "ReadMessageItem", "EntityRepresentationId");
  }

  lemma OwaNames()
    ensures "ItemID" != "viewmodel" && "exvsurl" != "ItemID" && "exvsurl" != "viewmodel"
    ensures "EntityRepresentationId" != "ItemID" && "EntityRepresentationId" != "viewmodel"
  {
    assert "ItemID"[0] == 'I' && "viewmodel"[0] == 'v' && "exvsurl"[0] == 'e' && "EntityRepresentationId"[0] == 'E';
  }

  predicate Base64(c: char) { 'A' <= c <= 'Z' || 'a' <= c <= 'z' || '0' <= c <= '9' || c == '+' || c == '/' }

  /** The first n characters are base64, and up to two equals signs follow. */
  predicate Base64Of(s: string, n: nat) {
    && 1 <= n <= 2048 && n <= |s| <= n + 2
    && forall i | 0 <= i < |s| :: if i < n then Base64(s[i]) else s[i] == '='
  }

  /** A mailbox item id: an identity as it is, or base64 text with a slash or a plus in it. */
  ghost predicate ItemId(id: string) {
    if '/' in id || '+' in id then (exists n: nat :: Base64Of(id, n)) && IsIdentity(RestId(id)) else IsIdentity(id)
  }

  lemma OwaIdIs(id: string)
    ensures IsOwaId(id) <==> exists n: nat :: Base64Of(id, n)
  {
    forall padding: nat | padding <= 2 && padding < |id|
      ensures Padded(id, padding) <==> Base64Of(id, |id| - padding)
    {
    }
    if n: nat :| Base64Of(id, n) { assert Padded(id, |id| - n); }
  }

  lemma ItemIdIsRead(id: string)
    requires ItemId(id)
    ensures Ascii(id) && OwaMessageId(id).Some? && |OwaMessageId(id).value| == |id|
    ensures forall i | 0 <= i < |id| :: OwaMessageId(id).value[i] == RestChar(id[i])
  {
    OwaIdIs(id);
    RestIdIs(id);
    if '/' in id || '+' in id { OwaIsAscii(id); }
  }

  lemma OwaIsAscii(id: string)
    requires IsOwaId(id)
    ensures Ascii(id)
  {
    forall c | c in id ensures 0x20 < c as int < 0x7F {
      var i :| 0 <= i < |id| && id[i] == c;
    }
  }

  /** An Outlook web link names a message of the signed-in mailbox by its item id, rewritten character by character. */
  lemma WebLinkIsRead(env: Environment, host: string, id: string) returns (message: string)
    requires OutlookHost(host) && NamesHost(env, host) && ItemId(id)
    ensures |message| == |id| && forall i | 0 <= i < |id| :: message[i] == RestChar(id[i])
    ensures var query := Field("ItemID", id) + "&" + Field("viewmodel", "ReadMessageItem");
      var text := "https://" + host + "/owa/" + "?" + query;
      ParseLocation(env, text) ==
        if |text| > 8192 then None else Some(Location(Supplier, message, Some("me"), None, None, None))
  {
    hide ParseLocation, ParseQuery, RepeatsKey, FromOutlook, IsIdentity, WellEscaped, PathOf, Ascii, PlainWord, Field,
      HostName, SegmentChar, OwaMessageId, ItemId, RestChar;
    ItemIdIsRead(id);
    message := OwaMessageId(id).value;
    LinkWords();
    HostsAre();
    IdentityIsAscii("ReadMessageItem");
    TwoFieldsAreRead("ItemID", id, "viewmodel", "ReadMessageItem");
    TwoFieldsText("ItemID", id, "viewmodel", "ReadMessageItem");
    OwaParts(id);
    OwaPathOf();
    LinkIsTakenApart(env, host, "/owa/", ["owa"], Field("ItemID", id) + "&" + Field("viewmodel", "ReadMessageItem"));
  }

  // --- What an accepted text means -----------------------------------------------------------------------

  lemma {:induction false} GetFinds(query: seq<(string, string)>, key: string)
    ensures Get(query, key).Some? ==> (key, Get(query, key).value) in query
  {
    if |query| > 0 { GetFinds(query[1..], key); }
  }

  /** The segments of the path that was accepted, unquoted. */
  function PartsOf(value: string): seq<string> { NonEmpty(Split(UrlSplit(value).path, '/')[1..]) }

  ghost predicate FromItem(id: string, message: string) {
    |message| == |id| && forall i | 0 <= i < |id| :: message[i] == RestChar(id[i])
  }

  /** Where each part of an accepted locator comes from: its message is the last segment of a path, a link or,
      rewritten, the item id of a web link; its mailbox, team and channel are the named segments, or the team and the
      tenant the named fields of a Teams link; a link to Outlook is to the signed-in mailbox. */
  lemma AcceptedIsNamed(env: Environment, value: string)
    requires ParseLocation(env, value).Some?
    ensures env.authority(UrlSplit(value).netloc).Some? && ParseQuery(UrlSplit(value).query).Some?
    ensures var l, parts, url := ParseLocation(env, value).value, PartsOf(value), UrlSplit(value);
      var host, query := env.authority(url.netloc).value.hostname, ParseQuery(url.query).value;
      if url.scheme == "" then
        || (parts == ["me", "messages", l.messageId]
            && l == Location(Supplier, l.messageId, Some("me"), None, None, None))
        || (l.mailbox.Some? && parts == ["users", l.mailbox.value, "messages", l.messageId]
            && l == Location(Supplier, l.messageId, l.mailbox, None, None, None))
        || (l.teamId.Some? && l.channelId.Some?
            && parts == ["teams", l.teamId.value, "channels", l.channelId.value, "messages", l.messageId]
            && l == Location(Quality, l.messageId, None, l.teamId, l.channelId, None))
      else if host == Some("teams.microsoft.com") then
        && l.teamId.Some? && l.channelId.Some? && l.tenantId.Some?
        && l == Location(Quality, l.messageId, None, l.teamId, l.channelId, l.tenantId)
        && parts == ["l", "message", l.channelId.value, l.messageId]
        && ("groupId", l.teamId.value) in query && ("tenantId", l.tenantId.value) in query
      else
        && l == Location(Supplier, l.messageId, Some("me"), None, None, None)
        && (|| parts == ["mail", "deeplink", "read", l.messageId]
            || (parts == ["owa"] && exists id :: ("ItemID", id) in query && FromItem(id, l.messageId)))
  {
    hide UrlSplit, NonEmpty, Split, ParseQuery, RepeatsKey, WellEscaped, AllIdentities, DoubleSlash, Printable,
      FromPath, FromTeams, FromOutlook, TrailingSlash;
    var url := UrlSplit(value);
    var parts, query := PartsOf(value), ParseQuery(url.query).value;
    PathNames(parts);
    TeamsNames(parts, query);
    OutlookNames(parts, query);
  }

  lemma PathNames(parts: seq<string>)
    ensures FromPath(parts).Some? ==>
      var l := FromPath(parts).value;
      || (parts == ["me", "messages", l.messageId]
          && l == Location(Supplier, l.messageId, Some("me"), None, None, None))
      || (l.mailbox.Some? && parts == ["users", l.mailbox.value, "messages", l.messageId]
          && l == Location(Supplier, l.messageId, l.mailbox, None, None, None))
      || (l.teamId.Some? && l.channelId.Some?
          && parts == ["teams", l.teamId.value, "channels", l.channelId.value, "messages", l.messageId]
          && l == Location(Quality, l.messageId, None, l.teamId, l.channelId, None))
  {
  }

  lemma TeamsNames(parts: seq<string>, query: seq<(string, string)>)
    ensures FromTeams(parts, query).Some? ==>
      var l := FromTeams(parts, query).value;
      && l.teamId.Some? && l.channelId.Some? && l.tenantId.Some?
      && l == Location(Quality, l.messageId, None, l.teamId, l.channelId, l.tenantId)
      && parts == ["l", "message", l.channelId.value, l.messageId]
      && ("groupId", l.teamId.value) in query && ("tenantId", l.tenantId.value) in query
  {
    hide IsIdentity, KeysAmong, Get;
    GetFinds(query, "groupId");
    GetFinds(query, "tenantId");
    if |parts| == 4 && parts[..2] == ["l", "message"] {
      assert parts[0] == parts[..2][0] && parts[1] == parts[..2][1];
      assert parts == [parts[0], parts[1], parts[2], parts[3]];
    }
  }

  lemma OutlookNames(parts: seq<string>, query: seq<(string, string)>)
    ensures FromOutlook(parts, query).Some? ==>
      var l := FromOutlook(parts, query).value;
      && l == Location(Supplier, l.messageId, Some("me"), None, None, None)
      && (|| parts == ["mail", "deeplink", "read", l.messageId]
          || (parts == ["owa"] && exists id :: ("ItemID", id) in query && FromItem(id, l.messageId)))
  {
    hide IsIdentity, KeysAmong, Get, IsGuid, FromItem;
    GetFinds(query, "ItemID");
    if |parts| == 4 && parts[..3] == ["mail", "deeplink", "read"] {
      assert parts[0] == parts[..3][0] && parts[1] == parts[..3][1] && parts[2] == parts[..3][2];
      assert parts == [parts[0], parts[1], parts[2], parts[3]];
    }
    if Get(query, "ItemID").Some? { ItemIsRewritten(Get(query, "ItemID").value); }
  }

  lemma ItemIsRewritten(id: string)
    ensures OwaMessageId(id).Some? ==> FromItem(id, OwaMessageId(id).value)
  {
    RestIdIs(id);
  }

  // --- The fields of an accepted link ------------------------------------------------------------------

  lemma {:induction false} FieldIsGot(query: seq<(string, string)>, i: nat)
    requires i < |query| && !RepeatsKey(query)
    ensures Get(query, query[i].0) == Some(query[i].1)
  {
    if i > 0 {
      assert query[0].0 != query[i].0;
      forall j, k | 0 <= j < k < |query[1..]| ensures query[1..][j].0 != query[1..][k].0 {
        assert query[j + 1].0 != query[k + 1].0;
      }
      FieldIsGot(query[1..], i - 1);
    }
  }

  /** Four or eight or twelve hexadecimal digits between hyphens, 36 characters in all. */
  predicate Guid(s: string) {
    && |s| == 36 && s[8] == '-' && s[13] == '-' && s[18] == '-' && s[23] == '-'
    && forall i | 0 <= i < 36 && i != 8 && i != 13 && i != 18 && i != 23 ::
         '0' <= s[i] <= '9' || 'a' <= s[i] <= 'f' || 'A' <= s[i] <= 'F'
  }

  /** What a Teams link may say besides where its message is. */
  predicate TeamsField(key: string, value: string, message: string) {
    || key == "groupId" || key == "tenantId" || (key == "parentMessageId" && value == message)
    || (key == "createdTime" && 1 <= |value| <= 20 && forall c | c in value :: '0' <= c <= '9')
  }

  /** What an Outlook web link may say. */
  predicate OwaField(key: string, value: string) {
    || key == "ItemID" || (key == "viewmodel" && value == "ReadMessageItem") || (key == "exvsurl" && value == "1")
    || (key == "EntityRepresentationId" && Guid(value))
  }

  lemma TeamsFields(parts: seq<string>, query: seq<(string, string)>)
    requires !RepeatsKey(query) && FromTeams(parts, query).Some?
    ensures forall i | 0 <= i < |query| ::
              TeamsField(query[i].0, query[i].1, FromTeams(parts, query).value.messageId)
  {
    hide IsIdentity, Get, RepeatsKey;
    forall i | 0 <= i < |query|
      ensures TeamsField(query[i].0, query[i].1, FromTeams(parts, query).value.messageId)
    {
      FieldIsGot(query, i);
    }
  }

  // --- Exactly what is accepted ---------------------------------------------------------------------------

  ghost predicate Has(query: seq<(string, string)>, key: string, ok: string -> bool) {
    exists i :: 0 <= i < |query| && query[i].0 == key && ok(query[i].1)
  }

  /** A field is looked up by its name. */
  lemma HasIs(query: seq<(string, string)>, key: string, ok: string -> bool)
    requires !RepeatsKey(query)
    ensures Has(query, key, ok) <==> Get(query, key).Some? && ok(Get(query, key).value)
  {
    hide Get, RepeatsKey;
    if Has(query, key, ok) {
      var i :| 0 <= i < |query| && query[i].0 == key && ok(query[i].1);
      FieldIsGot(query, i);
    }
    if Get(query, key).Some? && ok(Get(query, key).value) {
      GetFinds(query, key);
      var i :| 0 <= i < |query| && query[i] == (key, Get(query, key).value);
    }
  }

  /** A path names a message of the signed-in mailbox, of another, or of a channel. */
  predicate PathShape(parts: seq<string>) {
    || (|parts| == 3 && parts[0] == "me" && parts[1] == "messages")
    || (|parts| == 4 && parts[0] == "users" && parts[2] == "messages")
    || (|parts| == 6 && parts[0] == "teams" && parts[2] == "channels" && parts[4] == "messages")
  }

  /** A Teams link: its four segments, a team and a tenant that are identities, and no field that says otherwise. */
  ghost predicate TeamsShape(parts: seq<string>, query: seq<(string, string)>) {
    && |parts| == 4 && parts[0] == "l" && parts[1] == "message"
    && Has(query, "groupId", IsIdentity) && Has(query, "tenantId", IsIdentity)
    && forall i | 0 <= i < |query| :: TeamsField(query[i].0, query[i].1, parts[3])
  }

  /** An Outlook read link without fields, or a web link with an item id and the message view. */
  ghost predicate OutlookShape(parts: seq<string>, query: seq<(string, string)>) {
    || (|parts| == 4 && parts[0] == "mail" && parts[1] == "deeplink" && parts[2] == "read" && query == [])
    || (parts == ["owa"] && Has(query, "ItemID", ItemId)
        && Has(query, "viewmodel", (v: string) => v == "ReadMessageItem")
        && forall i | 0 <= i < |query| :: OwaField(query[i].0, query[i].1))
  }

  lemma TeamsWhen(parts: seq<string>, query: seq<(string, string)>)
    requires !RepeatsKey(query)
    ensures FromTeams(parts, query).Some? <==> TeamsShape(parts, query)
  {
    hide IsIdentity, Get, RepeatsKey;
    HasIs(query, "groupId", IsIdentity);
    HasIs(query, "tenantId", IsIdentity);
    if FromTeams(parts, query).Some? {
      TeamsFields(parts, query);
      TeamsNames(parts, query);
    }
    if TeamsShape(parts, query) {
      GetFinds(query, "parentMessageId");
      GetFinds(query, "createdTime");
      TeamsMay(parts, query);
    }
  }

  lemma TeamsMay(parts: seq<string>, query: seq<(string, string)>)
    requires !RepeatsKey(query) && TeamsShape(parts, query)
    ensures parts[..2] == ["l", "message"]
    ensures KeysAmong(query, ["groupId", "tenantId", "parentMessageId", "createdTime"])
    ensures Get(query, "parentMessageId").Some? ==> Get(query, "parentMessageId").value == parts[3]
    ensures Get(query, "createdTime").Some? ==>
      var t := Get(query, "createdTime").value; 1 <= |t| <= 20 && forall c | c in t :: IsDigit(c)
  {
    hide IsIdentity, Get, RepeatsKey, Has;
    FourNames();
    AllButTwo();
    GetFinds(query, "parentMessageId");
    GetFinds(query, "createdTime");
  }

  lemma AllButTwo()
    ensures "parentMessageId" != "createdTime"
  {
    assert "parentMessageId"[0] == 'p' && "createdTime"[0] == 'c';
  }

  lemma OutlookWhen(parts: seq<string>, query: seq<(string, string)>)
    requires !RepeatsKey(query)
    ensures FromOutlook(parts, query).Some? <==> OutlookShape(parts, query)
  {
    hide IsIdentity, Get, RepeatsKey, IsOwaId, IsGuid, Guid, RestId, OwaMessageId, ItemId, Has;
    var message := (v: string) => v == "ReadMessageItem";
    HasIs(query, "ItemID", ItemId);
    HasIs(query, "viewmodel", message);
    OwaShapes(parts, query);
    if |parts| == 4 && parts[..3] == ["mail", "deeplink", "read"] {
      assert parts[0] == parts[..3][0] && parts[1] == parts[..3][1] && parts[2] == parts[..3][2];
    }
    if |parts| == 4 && parts[0] == "mail" && parts[1] == "deeplink" && parts[2] == "read" {
      assert parts[..3] == ["mail", "deeplink", "read"];
    }
  }

  lemma OwaShapes(parts: seq<string>, query: seq<(string, string)>)
    requires !RepeatsKey(query)
    ensures Get(query, "ItemID").Some? ==>
      (OwaMessageId(Get(query, "ItemID").value).Some? <==> ItemId(Get(query, "ItemID").value))
    ensures KeysAmong(query, ["ItemID", "exvsurl", "viewmodel", "EntityRepresentationId"])
      && Get(query, "viewmodel") == Some("ReadMessageItem")
      && (Get(query, "exvsurl").None? || Get(query, "exvsurl") == Some("1"))
      && (Get(query, "EntityRepresentationId").None? || IsGuid(Get(query, "EntityRepresentationId").value))
      <==> Get(query, "viewmodel") == Some("ReadMessageItem")
           && forall i | 0 <= i < |query| :: OwaField(query[i].0, query[i].1)
  {
    hide IsIdentity, Get, RepeatsKey, IsOwaId, IsGuid, Guid, RestId, Base64Of;
    if Get(query, "ItemID").Some? { OwaIdIs(Get(query, "ItemID").value); }
    OwaNames();
    OwaOthers();
    GetFinds(query, "exvsurl");
    GetFinds(query, "EntityRepresentationId");
    forall i | 0 <= i < |query| ensures Get(query, query[i].0) == Some(query[i].1) { FieldIsGot(query, i); }
    forall s ensures IsGuid(s) <==> Guid(s) { GuidIs(s); }
  }

  lemma OwaOthers()
    ensures "exvsurl" != "EntityRepresentationId"
  {
    assert "exvsurl"[0] == 'e' && "EntityRepresentationId"[0] == 'E';
  }

  lemma GuidIs(s: string)
    ensures IsGuid(s) <==> Guid(s)
  {
  }

  /** A text is accepted if and only if it is short, without spaces and well escaped, its path is made of identities
      without an empty segment, no user, other port, fragment or repeated field is named, and it is a path of one of
      the three shapes on its own, or an https link of the service's shape to one of the three services. */
  lemma AcceptedExactlyWhen(env: Environment, value: string)
    ensures ParseLocation(env, value).Some? <==>
      var url, parts := UrlSplit(value), PartsOf(value);
      && |value| <= 8192 && (forall c | c in value :: !IsSpace(c) && c as int >= 32) && WellEscaped(value)
      && env.authority(url.netloc).Some? && url.fragment == "" && ParseQuery(url.query).Some?
      && (forall p | p in parts :: IsIdentity(p))
      && (forall i | 0 <= i < |url.path| - 1 :: !(url.path[i] == '/' && url.path[i + 1] == '/'))
      && (|url.path| > 0 && url.path[|url.path| - 1] == '/' ==> url.path == "/owa/")
      && var a, query := env.authority(url.netloc).value, ParseQuery(url.query).value;
         && a.username.None? && a.password.None? && (a.port.Some? ==> a.port.value == 443) && !RepeatsKey(query)
         && if url.scheme == "" && url.netloc == "" && query == [] && |url.path| > 0 && url.path[0] == '/' then
              PathShape(parts)
            else
              && url.scheme == "https"
              && if a.hostname == Some("outlook.office.com") || a.hostname == Some("outlook.office365.com") then
                   OutlookShape(parts, query)
                 else a.hostname == Some("teams.microsoft.com") && TeamsShape(parts, query)
  {
    hide UrlSplit, NonEmpty, Split, ParseQuery, RepeatsKey, WellEscaped, IsIdentity, IsSpace, FromTeams, FromOutlook,
      TeamsShape, OutlookShape;
    var url, parts := UrlSplit(value), PartsOf(value);
    if ParseQuery(url.query).Some? && !RepeatsKey(ParseQuery(url.query).value) {
      TeamsWhen(parts, ParseQuery(url.query).value);
      OutlookWhen(parts, ParseQuery(url.query).value);
    }
  }

  // --- The bytes of a character -----------------------------------------------------------------------------

  /** The bits that further bytes carry, six in each. */
  lemma SixBits(n: nat)
    ensures n == n / 0x40 * 0x40 + n % 0x40 && n / 0x1000 == n / 0x40 / 0x40 && n / 0x40000 == n / 0x1000 / 0x40
  {
  }

  /** The shortest sequence of bytes that encodes the character in UTF-8 (section 3 of RFC 3629): a first byte that
      tells the number of bytes, and six more bits in each of the others. */
  lemma BytesAreUtf8(c: char)
    ensures var n, b := c as int, Utf8(c);
      && |b| == (if n < 0x80 then 1 else if n < 0x800 then 2 else if n < 0x10000 then 3 else 4)
      && (if |b| == 1 then b[0] == n
          else if |b| == 2 then 0xC0 <= b[0] < 0xE0 && n == (b[0] - 0xC0) * 0x40 + (b[1] - 0x80)
          else if |b| == 3 then
            0xE0 <= b[0] < 0xF0 && n == ((b[0] - 0xE0) * 0x40 + (b[1] - 0x80)) * 0x40 + (b[2] - 0x80)
          else
            && 0xF0 <= b[0] < 0xF8
            && n == (((b[0] - 0xF0) * 0x40 + (b[1] - 0x80)) * 0x40 + (b[2] - 0x80)) * 0x40 + (b[3] - 0x80))
      && forall i | 0 < i < |b| :: 0x80 <= b[i] < 0xC0
  {
    var n := c as int;
    SixBits(n);
    SixBits(n / 0x40);
    SixBits(n / 0x1000);
  }

  const LOWER_HEX := "0123456789abcdef"
  const UPPER_HEX := "0123456789ABCDEF"

  lemma HexIs(d: nat)
    requires d < 16
    ensures IsHex(LOWER_HEX[d]) && IsHex(UPPER_HEX[d]) && HexValue(LOWER_HEX[d]) == HexValue(UPPER_HEX[d]) == d
  {
  }

  /** An escape stands for the character of its code, in either case of its digits; any other text for itself. */
  lemma EscapesAreRead(code: nat, rest: string)
    requires code < 0x80
    ensures Unquote("%" + [LOWER_HEX[code / 16], LOWER_HEX[code % 16]] + rest) == [code as char] + Unquote(rest)
    ensures Unquote("%" + [UPPER_HEX[code / 16], UPPER_HEX[code % 16]] + rest) == [code as char] + Unquote(rest)
    ensures code as char != '%' ==> Unquote([code as char] + rest) == [code as char] + Unquote(rest)
  {
    HexIs(code / 16);
    HexIs(code % 16);
    hide LOWER_HEX, UPPER_HEX;
    var lower := "%" + [LOWER_HEX[code / 16], LOWER_HEX[code % 16]] + rest;
    var upper := "%" + [UPPER_HEX[code / 16], UPPER_HEX[code % 16]] + rest;
    assert lower[3..] == rest && upper[3..] == rest && ([code as char] + rest)[1..] == rest;
  }

  /** An identity has up to 2048 letters, digits and marks of this list, and is no relative path segment. */
  lemma IdentityIs(s: string)
    ensures IsIdentity(s) <==>
      && 1 <= |s| <= 2048 && s != "." && s != ".."
      && forall c | c in s :: 'A' <= c <= 'Z' || 'a' <= c <= 'z' || '0' <= c <= '9' || c in "_+@=:.!~-"
  {
  }
}
