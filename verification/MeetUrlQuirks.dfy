/** The sloppy forms of a meeting link that the normaliser promises to tolerate. */
module MeetUrlQuirks {
  import opened Options
  import opened MeetUrls

  /** A link as the normaliser prints it. */
  ghost predicate IsLink(link: string, code: string, query: string) {
    IsCode(code) && IsQuery(query) && NoSpaceIn(query) && link == BASE + code + query
  }

  lemma LinkText(link: string, code: string, query: string)
    requires IsLink(link, code, query)
    ensures NoSpaceIn(link) && |link| > 8 && link[0] == 'h' && SCHEME <= link && link[8..] == HOST + "/" + code + query
  {
    CanonicalText(code, query);
  }

  // ---------------------------------------------------------------- quotes and white space

  predicate AllSpace(s: string) {
    forall i :: 0 <= i < |s| ==> IsSpace(s[i])
  }

  lemma {:induction false} SkipAll(a: string, s: string)
    requires AllSpace(a) && s != "" && !IsSpace(s[0])
    ensures SkipSpace(a + s) == s
  {
    if a == "" {
      assert a + s == s;
    } else {
      assert (a + s)[1..] == a[1..] + s;
      SkipAll(a[1..], s);
    }
  }

  lemma {:induction false} DropAll(s: string, b: string)
    requires AllSpace(b) && s != "" && !IsSpace(s[|s| - 1])
    ensures DropTrailingSpace(s + b) == s
  {
    if b == "" {
      assert s + b == s;
    } else {
      assert (s + b)[..|s + b| - 1] == s + b[..|b| - 1];
      DropAll(s, b[..|b| - 1]);
    }
  }

  /** White space around an input that has none at its ends makes no difference. */
  lemma PaddingIgnored(a: string, s: string, b: string)
    requires AllSpace(a) && AllSpace(b) && s != "" && !IsSpace(s[0]) && !IsSpace(s[|s| - 1])
    ensures Parse(a + s + b) == Parse(s)
  {
    assert a + s + b == a + (s + b);
    SkipAll(a, s + b);
    DropAll(s, b);
    SkipAll("", s);
    DropAll(s, "");
    assert "" + s == s && s + "" == s;
  }

  // ---------------------------------------------------------------- escapes

  /** A backslash put before each of ? = &. */
  function Escape(s: string): string {
    if s == "" then ""
    else (if IsEscapable(s[0]) then ['\\', s[0]] else [s[0]]) + Escape(s[1..])
  }

  lemma {:induction false} EscapeRoundTrip(s: string)
    requires '\\' !in s
    ensures Unescape(Escape(s)) == s
    ensures NoSpaceIn(s) ==> NoSpaceIn(Escape(s))
    ensures Escape(s) != "" <==> s != ""
  {
    if s != "" {
      EscapeRoundTrip(s[1..]);
      assert s == [s[0]] + s[1..];
      var e := Escape(s);
      if IsEscapable(s[0]) {
        assert e[2..] == Escape(s[1..]);
      } else {
        assert e[1..] == Escape(s[1..]);
      }
    }
  }

  lemma CodeUnescaped(p: string, s: string)
    requires forall i :: 0 <= i < |p| ==> !IsEscapable(p[i])
    ensures Escape(p + s) == p + Escape(s)
  {
    if p == "" {
      assert p + s == s;
    } else {
      assert (p + s)[1..] == p[1..] + s;
      CodeUnescaped(p[1..], s);
    }
  }

  lemma EscapedText(link: string, code: string, query: string)
    requires IsLink(link, code, query) && '\\' !in query
    ensures var e := Escape(link); e == BASE + code + Escape(query) && NoSpaceIn(e) && e != "" && e[0] == 'h'
  {
    CanonicalText(code, query);
    assert forall i :: 0 <= i < |BASE| ==> !IsEscapable(BASE[i]);
    CodeUnescaped(BASE + code, query);
    EscapeRoundTrip(query);
    CanonicalText(code, Escape(query));
  }

  /** Escaping the query of a link that holds no backslash makes no difference. */
  lemma EscapesIgnored(link: string, code: string, query: string)
    requires IsLink(link, code, query) && '\\' !in query
    ensures Parse(Escape(link)) == Parsed(link)
  {
    var e := Escape(link);
    LinkText(link, code, query);
    EscapedText(link, code, query);
    TrimNothing(e);
    assert StripQuotes(e) == e;
    CanonicalText(code, query);
    UnescapeAfter(BASE + code, Escape(query));
    EscapeRoundTrip(query);
    assert AddScheme(link) == link;
    NormaliseCanonical(code, query);
  }

  // ---------------------------------------------------------------- text around the link

  lemma {:induction false} TokenBeforeSpace(s: string, rest: string)
    requires rest != "" && IsSpace(rest[0])
    ensures TokenLength(s + rest) == TokenLength(s)
  {
    if s == "" {
      assert s + rest == rest;
    } else {
      assert (s + rest)[1..] == s[1..] + rest;
      TokenBeforeSpace(s[1..], rest);
    }
  }

  lemma {:induction false} SkipBeforeSpace(s: string, rest: string)
    requires rest != "" && IsSpace(rest[0])
    ensures SkipSpace(s + rest) == if SkipSpace(s) == "" then SkipSpace(rest) else SkipSpace(s) + rest
  {
    if s == "" {
      assert s + rest == rest;
    } else if IsSpace(s[0]) {
      assert (s + rest)[1..] == s[1..] + rest;
      SkipBeforeSpace(s[1..], rest);
    }
  }

  lemma FieldsOfSkipped(s: string)
    ensures Fields(SkipSpace(s)) == Fields(s)
  {
    SkipTwice(s);
  }

  lemma {:induction false} SkipTwice(s: string)
    ensures SkipSpace(SkipSpace(s)) == SkipSpace(s)
  {
    if s != "" && IsSpace(s[0]) {
      SkipTwice(s[1..]);
    }
  }

  /** A text that begins with its first token. */
  lemma FieldsFirst(t: string, head: string, tail: string)
    requires t == head + tail && t != "" && !IsSpace(t[0]) && |head| == TokenLength(t)
    ensures Fields(t) == [head] + Fields(tail)
  {
    assert t[..|head|] == head && t[|head|..] == tail;
  }

  lemma CutLater(t: string, rest: string, n: nat)
    requires n <= |t|
    ensures t + rest == t[..n] + (t[n..] + rest)
  {
  }

  lemma FieldsAfterToken(t: string, rest: string, n: nat)
    requires t != "" && !IsSpace(t[0]) && rest != "" && IsSpace(rest[0]) && n == TokenLength(t)
    ensures Fields(t + rest) == [t[..n]] + Fields(t[n..] + rest)
  {
    var whole, head, tail := t + rest, t[..n], t[n..] + rest;
    assert TokenLength(whole) == n by {
      TokenBeforeSpace(t, rest);
    }
    assert whole == head + tail by {
      CutLater(t, rest, n);
    }
    FieldsFirst(whole, head, tail);
  }

  /** The tokens of a text followed by white space and more are those of the text, then those of the rest. */
  lemma {:induction false} FieldsAppend(s: string, rest: string)
    requires rest != "" && IsSpace(rest[0])
    ensures Fields(s + rest) == Fields(s) + Fields(rest)
    decreases |s|
  {
    var t := SkipSpace(s);
    SkipSpaceShorter(s);
    SkipBeforeSpace(s, rest);
    FieldsOfSkipped(s + rest);
    if t == "" {
      FieldsOfSkipped(rest);
    } else {
      var n := TokenLength(t);
      calc {
        Fields(s + rest);
        Fields(t + rest);
        { FieldsAfterToken(t, rest, n); }
        [t[..n]] + Fields(t[n..] + rest);
        { FieldsAppend(t[n..], rest); }
        [t[..n]] + (Fields(t[n..]) + Fields(rest));
        ([t[..n]] + Fields(t[n..])) + Fields(rest);
        { FieldsFirst(t, t[..n], t[n..]); }
        Fields(t) + Fields(rest);
        { FieldsOfSkipped(s); }
        Fields(s) + Fields(rest);
      }
    }
  }

  lemma {:induction false} FirstWithHostAppend(a: seq<string>, b: seq<string>)
    requires FirstWithHost(a).None?
    ensures FirstWithHost(a + b) == FirstWithHost(b)
  {
    if a == [] {
      assert a + b == b;
    } else {
      assert (a + b)[1..] == a[1..] + b;
      FirstWithHostAppend(a[1..], b);
    }
  }

  lemma FirstWithHostSkip(token: string, b: seq<string>)
    requires !Contains(token, HOST)
    ensures FirstWithHost([token] + b) == FirstWithHost(b)
  {
    assert ([token] + b)[1..] == b;
  }

  lemma FirstWithHostFound(link: string, b: seq<string>)
    requires Contains(link, HOST)
    ensures FirstWithHost([link] + b) == Some(link)
  {
  }

  /** Text after white space cannot change what the first token with the host is. */
  lemma LinkThenTail(link: string, code: string, query: string, tail: string)
    requires IsLink(link, code, query) && (tail != "" ==> IsSpace(tail[0]))
    ensures FirstWithHost(Fields(link + tail)) == Some(link)
  {
    LinkText(link, code, query);
    NoSpaceOneToken(link);
    MatchCanonical(code, query);
    if tail == "" {
      assert link + tail == link;
    } else {
      FieldsAppend(link, tail);
      FirstWithHostFound(link, Fields(tail));
    }
  }

  lemma FoundLink(text: string, link: string, code: string, query: string)
    requires IsLink(link, code, query) && FirstWithHost(Fields(text)) == Some(link)
    ensures Normalise(text) == Parsed(link)
  {
    MatchCanonical(code, query);
  }

  // ---------------------------------------------------------------- a missing scheme

  /** A scheme glued to the front of a text becomes part of its first token. */
  lemma {:induction false} TokenAfterPrefix(p: string, s: string)
    requires NoSpaceIn(p)
    ensures TokenLength(p + s) == |p| + TokenLength(s)
  {
    if p == "" {
      assert p + s == s;
    } else {
      assert (p + s)[1..] == p[1..] + s;
      TokenAfterPrefix(p[1..], s);
    }
  }

  /** A prefix without the host's first letter cannot bring the host about. */
  lemma PrefixAddsNoHost(p: string, token: string)
    requires !Contains(token, HOST) && 'm' !in p
    ensures !Contains(p + token, HOST)
  {
    var s := p + token;
    ContainsMeaning(s, HOST);
    ContainsMeaning(token, HOST);
    assert HOST[0] == 'm';
    forall i | 0 <= i <= |s|
      ensures !(HOST <= s[i..])
    {
      if i < |p| {
        assert s[i..][0] == p[i];
      } else {
        assert s[i..] == token[i - |p|..];
      }
    }
  }

  lemma FieldsHead(s: string)
    requires s != "" && !IsSpace(s[0])
    ensures Fields(s) == [s[..TokenLength(s)]] + Fields(s[TokenLength(s)..])
  {
    assert SkipSpace(s) == s;
  }

  lemma FieldsOfPrefixed(p: string, s: string)
    requires s != "" && !IsSpace(s[0]) && p != "" && NoSpaceIn(p)
    ensures Fields(p + s) == [p + s[..TokenLength(s)]] + Fields(s[TokenLength(s)..])
  {
    var n, t := TokenLength(s), p + s;
    TokenAfterPrefix(p, s);
    assert t[0] == p[0];
    FieldsHead(t);
    assert t[..|p| + n] == p + s[..n] && t[|p| + n..] == s[n..];
  }

  /** No match starts in a text without the host's first letter. */
  lemma {:induction false} FindMatchAfter(head: string, tail: string)
    requires 'm' !in head
    ensures FindMatch(head + tail) == FindMatch(tail)
  {
    if head == "" {
      assert head + tail == tail;
    } else {
      assert (head + tail)[0] == head[0] && (head + tail)[1..] == head[1..] + tail;
      assert head[0] in head && forall c :: c in head[1..] ==> c in head;
      assert HOST[0] == 'm';
      FindMatchAfter(head[1..], tail);
    }
  }

  lemma ContainsAfter(p: string, token: string)
    requires Contains(token, HOST)
    ensures Contains(p + token, HOST)
  {
    ContainsMeaning(token, HOST);
    var i :| 0 <= i <= |token| && HOST <= token[i..];
    assert (p + token)[|p| + i..] == token[i..];
    ContainsMeaning(p + token, HOST);
  }

  /** A prefix without the host's first letter, glued to a text, changes nothing in what is found. */
  lemma PrefixMakesNoDifference(p: string, s: string)
    requires s != "" && !IsSpace(s[0]) && p != "" && NoSpaceIn(p) && 'm' !in p
    ensures Normalise(p + s) == Normalise(s)
  {
    var n := TokenLength(s);
    FieldsHead(s);
    FieldsOfPrefixed(p, s);
    if Contains(s[..n], HOST) {
      ContainsAfter(p, s[..n]);
      FirstWithHostFound(s[..n], Fields(s[n..]));
      FirstWithHostFound(p + s[..n], Fields(s[n..]));
      FindMatchAfter(p, s[..n]);
    } else {
      PrefixAddsNoHost(p, s[..n]);
      FirstWithHostSkip(s[..n], Fields(s[n..]));
      FirstWithHostSkip(p + s[..n], Fields(s[n..]));
    }
  }

  /** For every text the scheme added to a bare host makes no difference. */
  lemma SchemeMakesNoDifference(s: string)
    ensures Normalise(AddScheme(s)) == Normalise(s)
  {
    if "meet." <= s {
      assert s[0] == "meet."[0];
      assert NoSpaceIn(SCHEME) && 'm' !in SCHEME;
      PrefixMakesNoDifference(SCHEME, s);
    }
  }

  /** So parsing is trimming, unquoting, unescaping and searching. */
  lemma ParseByParts(raw: string)
    requires TrimSpace(raw) != ""
    ensures Parse(raw) == Normalise(Unescape(StripQuotes(TrimSpace(raw))))
  {
    SchemeMakesNoDifference(Unescape(StripQuotes(TrimSpace(raw))));
  }

  // ---------------------------------------------------------------- quotes

  lemma {:induction false} SkipToNothing(s: string)
    ensures SkipSpace(s) == "" <==> AllSpace(s)
  {
    if s != "" && IsSpace(s[0]) {
      SkipToNothing(s[1..]);
      assert forall i :: 1 <= i < |s| ==> s[1..][i - 1] == s[i];
    }
  }

  lemma {:induction false} DropToNothing(s: string)
    ensures DropTrailingSpace(s) == "" <==> AllSpace(s)
  {
    if s != "" && IsSpace(s[|s| - 1]) {
      DropToNothing(s[..|s| - 1]);
    }
  }

  lemma TrimToNothing(s: string)
    ensures TrimSpace(s) == "" <==> AllSpace(s)
  {
    SkipToNothing(s);
    SkipSpaceShorter(s);
    DropToNothing(SkipSpace(s));
  }

  /** Trimming takes white space off both ends and nothing else. */
  lemma TrimParts(s: string) returns (a: string, b: string)
    ensures AllSpace(a) && AllSpace(b) && s == a + TrimSpace(s) + b
  {
    a := SkipParts(s);
    b := DropParts(SkipSpace(s));
    assert s == a + (TrimSpace(s) + b);
  }

  lemma {:induction false} SkipParts(s: string) returns (a: string)
    ensures AllSpace(a) && s == a + SkipSpace(s)
  {
    a := "";
    if s != "" && IsSpace(s[0]) {
      a := SkipParts(s[1..]);
      assert s == [s[0]] + s[1..];
      a := [s[0]] + a;
    }
  }

  lemma {:induction false} DropParts(s: string) returns (b: string)
    ensures AllSpace(b) && s == DropTrailingSpace(s) + b
  {
    b := "";
    if s != "" && IsSpace(s[|s| - 1]) {
      b := DropParts(s[..|s| - 1]);
      assert s == s[..|s| - 1] + [s[|s| - 1]];
      b := b + [s[|s| - 1]];
    }
  }

  lemma TrimEnds(s: string)
    requires s != "" && !IsSpace(s[0]) && !IsSpace(s[|s| - 1])
    ensures TrimSpace(s) == s
  {
    SkipAll("", s);
    DropAll(s, "");
    assert "" + s == s && s + "" == s;
  }

  lemma UnescapePair(s: string)
    requires StartsWithEscape(s)
    ensures Unescape(s) == [s[1]] + Unescape(s[2..])
  {
  }

  lemma UnescapeFirst(s: string)
    requires s != "" && !StartsWithEscape(s)
    ensures Unescape(s) == [s[0]] + Unescape(s[1..])
  {
  }

  lemma Regroup(a: string, b: string, c: string)
    ensures a + (b + c) == (a + b) + c
  {
  }

  /** An escape at the front of `s`. */
  predicate StartsWithEscape(s: string) {
    |s| >= 2 && s[0] == '\\' && IsEscapable(s[1])
  }

  lemma AppendPair(p: string, s: string)
    requires StartsWithEscape(p) && Unescape(p[2..] + s) == Unescape(p[2..]) + Unescape(s)
    ensures Unescape(p + s) == Unescape(p) + Unescape(s)
  {
    var t := p + s;
    assert t[2..] == p[2..] + s;
    UnescapePair(t);
    UnescapePair(p);
    Regroup([p[1]], Unescape(p[2..]), Unescape(s));
  }

  lemma AppendFirst(p: string, s: string)
    requires p != "" && !StartsWithEscape(p) && !StartsWithEscape(p + s)
    requires Unescape(p[1..] + s) == Unescape(p[1..]) + Unescape(s)
    ensures Unescape(p + s) == Unescape(p) + Unescape(s)
  {
    var t := p + s;
    assert t[1..] == p[1..] + s;
    UnescapeFirst(t);
    UnescapeFirst(p);
    Regroup([p[0]], Unescape(p[1..]), Unescape(s));
  }

  /** Unescaping works piece by piece, as long as no escape spans the two. */
  lemma {:induction false} UnescapeAppend(p: string, s: string)
    requires s != "" ==> !IsEscapable(s[0])
    ensures Unescape(p + s) == Unescape(p) + Unescape(s)
    decreases |p|
  {
    if p == "" {
      assert p + s == s;
      assert Unescape("") == "";
    } else if StartsWithEscape(p) {
      UnescapeAppend(p[2..], s);
      AppendPair(p, s);
    } else {
      UnescapeAppend(p[1..], s);
      AppendFirst(p, s);
    }
  }

  lemma {:induction false} SkipPrefix(a: string, s: string)
    requires AllSpace(a)
    ensures SkipSpace(a + s) == SkipSpace(s)
  {
    if a == "" {
      assert a + s == s;
    } else {
      assert (a + s)[1..] == a[1..] + s;
      SkipPrefix(a[1..], s);
    }
  }

  lemma SpacedFields(a: string, u: string, b: string)
    requires AllSpace(a) && AllSpace(b)
    ensures Fields(a + (u + b)) == Fields(u)
  {
    SkipPrefix(a, u + b);
    FieldsOfSkipped(a + (u + b));
    FieldsOfSkipped(u + b);
    if b == "" {
      assert u + b == u;
    } else {
      FieldsAppend(u, b);
      SkipToNothing(b);
    }
  }

  /** White space around a text makes no difference to the search, unescaped or not. */
  lemma NormaliseTrimmed(s: string)
    ensures Normalise(Unescape(s)) == Normalise(Unescape(TrimSpace(s)))
  {
    var t := TrimSpace(s);
    var a, b := TrimParts(s);
    assert s == a + (t + b);
    UnescapeAfter(a, t + b);
    UnescapeAppend(t, b);
    UnescapeShorter(b);
    SpacedFields(a, Unescape(t), b);
  }

  lemma QuotedText(s: string)
    ensures TrimSpace("\"" + s + "\"") == "\"" + s + "\"" && StripQuotes("\"" + s + "\"") == s
  {
    var quoted := "\"" + s + "\"";
    TrimEnds(quoted);
    assert quoted[1..|quoted| - 1] == s;
  }

  /** Double quotes around any input that is not itself in quotes make no difference, spaces inside them included. */
  lemma QuotesIgnored(s: string)
    requires !AllSpace(s) && StripQuotes(TrimSpace(s)) == TrimSpace(s)
    ensures Parse("\"" + s + "\"") == Parse(s)
  {
    QuotedText(s);
    TrimToNothing(s);
    ParseByParts("\"" + s + "\"");
    ParseByParts(s);
    NormaliseTrimmed(s);
  }

  /** Around nothing they do: what is in the quotes is not looked at for being empty. */
  lemma QuotedNothing(s: string)
    requires AllSpace(s)
    ensures Parse(s) == EmptyInput && Parse("\"" + s + "\"") == NoHost
  {
    TrimToNothing(s);
    QuotedText(s);
    ParseByParts("\"" + s + "\"");
    UnescapeShorter(s);
    SkipToNothing(s);
  }

  // ---------------------------------------------------------------- text around the link

  lemma LinkAfterText(before: string, sep: string, link: string, code: string, query: string, tail: string)
    requires IsLink(link, code, query) && (tail != "" ==> IsSpace(tail[0]))
    requires AllSpace(sep) && (before != "" ==> sep != "") && NoneHasHost(Fields(before))
    ensures FirstWithHost(Fields(before + (sep + (link + tail)))) == Some(link)
  {
    var rest := sep + (link + tail);
    LinkThenTail(link, code, query, tail);
    SkipPrefix(sep, link + tail);
    FieldsOfSkipped(rest);
    FieldsOfSkipped(link + tail);
    if before == "" {
      assert before + rest == rest;
    } else {
      NoHostMeaning(Fields(before));
      FieldsAppend(before, rest);
      FirstWithHostAppend(Fields(before), Fields(rest));
    }
  }

  /**
   A link is found in the text around it. Whatever trimming, unquoting and unescaping leave, if it is a link,
   at its beginning or after white space and text in which no token mentions the host, and followed by nothing or
   white space and anything, the link is what is parsed.
   */
  lemma TextIgnored(raw: string, before: string, sep: string, link: string, code: string, query: string, tail: string)
    requires IsLink(link, code, query) && (tail != "" ==> IsSpace(tail[0]))
    requires AllSpace(sep) && (before != "" ==> sep != "") && NoneHasHost(Fields(before))
    requires Unescape(StripQuotes(TrimSpace(raw))) == before + (sep + (link + tail))
    ensures Parse(raw) == Parsed(link)
  {
    LinkText(link, code, query);
    NotTrimmedAway(raw);
    ParseByParts(raw);
    LinkAfterText(before, sep, link, code, query, tail);
    FoundLink(before + (sep + (link + tail)), link, code, query);
  }

  lemma NotTrimmedAway(raw: string)
    requires Unescape(StripQuotes(TrimSpace(raw))) != ""
    ensures TrimSpace(raw) != ""
  {
  }

  /** So of raw inputs: a link in plain text is found, whatever is around the text. */
  lemma PlainTextIgnored(raw: string, before: string, sep: string, link: string, code: string, query: string,
                         tail: string)
    requires IsLink(link, code, query) && (tail != "" ==> IsSpace(tail[0]))
    requires AllSpace(sep) && (before != "" ==> sep != "") && NoneHasHost(Fields(before))
    requires TrimSpace(raw) == before + (sep + (link + tail))
    requires StripQuotes(TrimSpace(raw)) == TrimSpace(raw) && !HasEscape(TrimSpace(raw))
    ensures Parse(raw) == Parsed(link)
  {
    UnescapeShorter(TrimSpace(raw));
    TextIgnored(raw, before, sep, link, code, query, tail);
  }

  // ---------------------------------------------------------------- what is rejected

  predicate NoneHasHost(tokens: seq<string>) {
    forall k :: 0 <= k < |tokens| ==> !Contains(tokens[k], HOST)
  }

  lemma {:induction false} NoHostMeaning(tokens: seq<string>)
    ensures FirstWithHost(tokens).None? <==> NoneHasHost(tokens)
  {
    if tokens != [] {
      NoHostMeaning(tokens[1..]);
      if NoneHasHost(tokens[1..]) {
        forall k | 0 < k < |tokens|
          ensures !Contains(tokens[k], HOST)
        {
          assert tokens[k] == tokens[1..][k - 1];
        }
      }
    }
  }

  /** The text whose tokens are searched. */
  function Rewritten(raw: string): string {
    AddScheme(Unescape(StripQuotes(TrimSpace(raw))))
  }

  /** The pattern matches somewhere in the token. */
  ghost predicate HasMatch(token: string) {
    exists i :: 0 <= i <= |token| && MatchAt(token[i..]).Some?
  }

  lemma HasMatchMeaning(token: string)
    ensures FindMatch(token).Some? <==> HasMatch(token)
  {
    var i := LeftmostMatch(token);
    if FindMatch(token).Some? {
      assert MatchAt(token[i..]).Some?;
    }
  }

  /**
   The three rejections, and acceptance, each exactly when it is due: nothing but white space; no token that
   mentions the host; no match anywhere in the first token that does.
   */
  lemma Rejections(raw: string)
    ensures Parse(raw) == EmptyInput <==> AllSpace(raw)
    ensures Parse(raw) == NoHost <==> !AllSpace(raw) && NoneHasHost(Fields(Rewritten(raw)))
    ensures var token := FirstWithHost(Fields(Rewritten(raw)));
            && (Parse(raw) == NoMeetCode <==> !AllSpace(raw) && token.Some? && !HasMatch(token.value))
            && (Parse(raw).Parsed? <==> !AllSpace(raw) && token.Some? && HasMatch(token.value))
  {
    TrimToNothing(raw);
    var tokens := Fields(Rewritten(raw));
    NoHostMeaning(tokens);
    if FirstWithHost(tokens).Some? {
      HasMatchMeaning(FirstWithHost(tokens).value);
    }
  }

  // ---------------------------------------------------------------- other hosts

  /** The pattern matches behind the place where the host of an https link stands. */
  ghost predicate MatchesLater(token: string) {
    exists i :: 8 < i <= |token| && MatchAt(token[i..]).Some?
  }

  /** An https link to another host: neither the Meet host nor its www form. */
  predicate IsForeign(token: string) {
    SCHEME <= token && !(BASE <= token) && !(SCHEME + "www." + HOST + "/" <= token)
  }

  lemma MatchAtHost(token: string)
    requires SCHEME <= token && !(BASE <= token)
    ensures MatchAt(token[8..]).None?
  {
    assert token == SCHEME + token[8..];
    assert BASE == SCHEME + (HOST + "/");
    assert HOST + "/" <= token[8..] ==> BASE <= token;
  }

  lemma MatchPlaces(token: string)
    requires SCHEME <= token && !(BASE <= token)
    ensures HasMatch(token) <==> MatchesLater(token)
  {
    MatchAtHost(token);
    forall i | 0 <= i <= 8
      ensures MatchAt(token[i..]).None?
    {
      if i < 8 {
        NoMatchAtScheme(token, i);
      }
    }
  }

  lemma MatchMentionsHost(token: string)
    requires HasMatch(token)
    ensures Contains(token, HOST)
  {
    var i :| 0 <= i <= |token| && MatchAt(token[i..]).Some?;
    assert HOST <= token[i..];
    ContainsMeaning(token, HOST);
  }

  /**
   The domain rule, for all inputs whose first token with the host is an https link elsewhere: the input is
   accepted all the same if and only if the host, a slash and a meeting code up to the end, or up to a query,
   occur later in that token.
   */
  lemma OtherHostAccepted(raw: string, token: string)
    requires FirstWithHost(Fields(Rewritten(raw))) == Some(token) && SCHEME <= token && !(BASE <= token)
    ensures Parse(raw).Parsed? <==> MatchesLater(token)
  {
    Rejections(raw);
    MatchPlaces(token);
    TrimToNothing(raw);
    assert TrimSpace(raw) == "" ==> Rewritten(raw) == "";
    assert Fields("") == [];
  }

  lemma PlainTokens(raw: string)
    requires SCHEME <= raw && NoSpaceIn(raw) && !HasEscape(raw)
    ensures Rewritten(raw) == raw && Fields(raw) == [raw] && !AllSpace(raw)
  {
    assert raw != "" && raw[0] == 'h';
    TrimNothing(raw);
    UnescapeShorter(raw);
    NoSpaceOneToken(raw);
  }

  /** For a plain https link the whole input is that token: which links to other hosts are accepted. */
  lemma ForeignLinkAccepted(raw: string)
    requires SCHEME <= raw && NoSpaceIn(raw) && !HasEscape(raw)
    ensures Parse(raw).Parsed? && !(BASE <= raw) <==> !(BASE <= raw) && MatchesLater(raw)
    ensures (Parse(raw).Parsed? ==> !IsForeign(raw)) <==> !(IsForeign(raw) && MatchesLater(raw))
  {
    PlainTokens(raw);
    Rejections(raw);
    assert FirstWithHost([raw]) == if Contains(raw, HOST) then Some(raw) else None;
    if HasMatch(raw) {
      MatchMentionsHost(raw);
    }
    if !(BASE <= raw) {
      MatchPlaces(raw);
    }
  }

  /** In front of a host and code, no match of the pattern starts in a text without a question mark. */
  lemma NoMatchInHead(head: string, tail: string, i: nat)
    requires '?' !in head && i < |head|
    requires |tail| >= 28 && HOST + "/" <= tail && IsCode(tail[16..28])
    ensures MatchAt((head + tail)[i..]).None?
  {
    var text := head + tail;
    NoQuestion(tail);
    if i + 28 < |text| {
      assert text[i..][28..][0] == text[i + 28];
      if i + 28 < |head| {
        assert text[i + 28] == head[i + 28];
        assert head[i + 28] in head;
      } else {
        assert text[i + 28] == tail[i + 28 - |head|];
      }
    }
  }

  lemma NoQuestion(tail: string)
    requires |tail| >= 28 && HOST + "/" <= tail && IsCode(tail[16..28])
    ensures forall j :: 0 <= j < 28 ==> tail[j] != '?'
  {
    assert '?' !in HOST + "/";
    forall j | 0 <= j < 28
      ensures tail[j] != '?'
    {
      if j < 16 {
        assert tail[j] == (HOST + "/")[j];
      } else {
        assert tail[j] == tail[16..28][j - 16];
      }
    }
  }

  lemma FindMatchBehind(head: string, tail: string)
    requires '?' !in head
    requires |tail| >= 28 && HOST + "/" <= tail && IsCode(tail[16..28]) && MatchAt(tail).Some?
    ensures FindMatch(head + tail) == MatchAt(tail)
  {
    var text := head + tail;
    var i := LeftmostMatch(text);
    assert text[|head|..] == tail;
    HasMatchMeaning(text);
    assert HasMatch(text);
    if i < |head| {
      NoMatchInHead(head, tail, i);
    }
  }

  lemma NormaliseAfter(head: string, link: string, code: string, query: string)
    requires IsLink(link, code, query) && '?' !in head && NoSpaceIn(head)
    ensures Normalise(head + link[8..]) == Parsed(link)
  {
    LinkText(link, code, query);
    var tail := link[8..];
    var text := head + tail;
    NoSpaceOneToken(text);
    assert text[|head|..] == tail && HOST <= tail;
    ContainsMeaning(text, HOST);
    assert tail[16..28] == code && tail[28..] == query;
    assert MatchAt(tail) == Some(Match(code, query));
    FindMatchBehind(head, tail);
  }

  /**
   What precedes the host of a link, up to white space, makes no difference: a scheme, "www.", or another host
   and path, as long as it holds no question mark and no escape and does not put the link in quotes.
   */
  lemma PrefixIgnored(head: string, link: string, code: string, query: string)
    requires IsLink(link, code, query)
    requires NoSpaceIn(head) && '?' !in head && !HasEscape(head)
    requires StripQuotes(head + link[8..]) == head + link[8..]
    ensures Parse(head + link[8..]) == Parse(link)
  {
    LinkText(link, code, query);
    var raw := head + link[8..];
    assert NoSpaceIn(raw) && raw != "";
    TrimNothing(raw);
    UnescapedQuery(query);
    var plain := BASE + code + Unescape(query);
    PrefixUnescaped(head, link, code, query);
    ParseByParts(raw);
    NormaliseAfter(head, plain, code, Unescape(query));
    ParseCanonical(code, query);
  }

  lemma BehindScheme(code: string, query: string)
    ensures (BASE + code + query)[8..] == HOST + "/" + code + query
  {
  }

  lemma PrefixUnescaped(head: string, link: string, code: string, query: string)
    requires IsCode(code) && link == BASE + code + query && !HasEscape(head)
    ensures Unescape(head + link[8..]) == head + (BASE + code + Unescape(query))[8..]
  {
    var site := HOST + "/" + code;
    BehindScheme(code, query);
    BehindScheme(code, Unescape(query));
    assert '\\' !in site;
    assert (site + query)[0] == 'm';
    UnescapeAppend(head, site + query);
    UnescapeShorter(head);
    UnescapeAfter(site, query);
  }

  /** A link may be given without its scheme. */
  lemma SchemeOptional(link: string, code: string, query: string)
    requires IsLink(link, code, query)
    ensures Parse(link[8..]) == Parse(link)
  {
    LinkText(link, code, query);
    assert link[8..][0] == 'm';
    assert "" + link[8..] == link[8..];
    PrefixIgnored("", link, code, query);
  }

  /** The www form of a link parses as the link. */
  lemma WwwCollapsed(link: string, code: string, query: string)
    requires IsLink(link, code, query)
    ensures Parse(SCHEME + "www." + link[8..]) == Parse(link)
  {
    PrefixIgnored(SCHEME + "www.", link, code, query);
  }

  /** A link to another host that is accepted, and printed as a Meet link. */
  lemma ForeignLinkExample()
    ensures var link := BASE + "abc-defg-hij" + "";
            var raw := SCHEME + "example.com/" + link[8..];
            IsForeign(raw) && Parse(raw) == Parsed(link)
  {
    var link := BASE + "abc-defg-hij" + "";
    var raw := SCHEME + "example.com/" + link[8..];
    assert raw[8] == 'e' && BASE[8] == 'm' && (SCHEME + "www." + HOST + "/")[8] == 'w';
    PrefixIgnored(SCHEME + "example.com/", link, "abc-defg-hij", "");
    ParseCanonical("abc-defg-hij", "");
  }

  lemma EscapesOfExample(tail: string)
    requires tail == "?a=b&c"
    ensures Escape(tail) == "\\?a\\=b\\&c" && IsQuery(tail) && NoSpaceIn(tail) && '\\' !in tail
  {
    assert tail[1..] == "a=b&c" && tail[1..][1..] == "=b&c" && tail[1..][1..][1..] == "b&c";
    assert tail[1..][1..][1..][1..] == "&c" && tail[1..][1..][1..][1..][1..] == "c";
    assert Escape("c") == "c";
    assert Escape("&c") == "\\&c";
    assert Escape("b&c") == "b\\&c";
    assert Escape("=b&c") == "\\=b\\&c";
    assert Escape("a=b&c") == "a\\=b\\&c";
  }

  /** White space and quotes around a text that has neither. */
  lemma Wrapped(before: string, text: string, after: string)
    requires AllSpace(before) && AllSpace(after) && NoSpaceIn(text) && text != "" && text[0] != '"'
    ensures Parse(before + ("\"" + text + "\"") + after) == Parse(text)
  {
    assert !IsSpace(text[0]);
    TrimNothing(text);
    QuotesIgnored(text);
    PaddingIgnored(before, "\"" + text + "\"", after);
  }

  lemma EscapedExample(code: string, text: string)
    requires IsCode(code) && text == BASE + code + "\\?a\\=b\\&c"
    ensures Parse(text) == Parsed(BASE + code + "?a=b&c")
    ensures NoSpaceIn(text) && text != "" && text[0] == 'h'
  {
    var query := "?a=b&c";
    EscapesOfExample(query);
    EscapedText(BASE + code + query, code, query);
    EscapesIgnored(BASE + code + query, code, query);
  }

  lemma SpacesOfExample(before: string, after: string)
    requires before == " \t\r\n" && after == "\n"
    ensures AllSpace(before) && AllSpace(after)
  {
  }

  lemma WrappedExample(before: string, code: string, text: string, after: string)
    requires IsCode(code) && text == BASE + code + "\\?a\\=b\\&c"
    requires before == " \t\r\n" && after == "\n"
    ensures Parse(before + ("\"" + text + "\"") + after) == Parsed(BASE + code + "?a=b&c")
  {
    EscapedExample(code, text);
    SpacesOfExample(before, after);
    Wrapped(before, text, after);
  }

  /** A link as it may be pasted from a shell: padded, in quotes, its ? = & escaped. */
  lemma PastedLink(code: string)
    requires IsCode(code)
    ensures Parse(" \t\r\n" + ("\"" + ("https://meet.google.com/" + code + "\\?a\\=b\\&c") + "\"") + "\n") ==
            Parsed("https://meet.google.com/" + code + "?a=b&c")
  {
    WrappedExample(" \t\r\n", code, BASE + code + "\\?a\\=b\\&c", "\n");
  }
}
