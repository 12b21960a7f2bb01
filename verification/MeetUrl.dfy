/** The Google Meet link normaliser. Strings are sequences of code points. */
module MeetUrls {
  import opened Options

  datatype ParseResult = Parsed(link: string) | EmptyInput | NoHost | NoMeetCode

  const HOST: string := "meet.google.com"
  const SCHEME: string := "https://"
  const BASE: string := "https://meet.google.com/"

  // ---------------------------------------------------------------- string primitives

  /** White space as Unicode defines it. */
  predicate IsSpace(c: char) {
    var n := c as int;
    || 0x09 <= n <= 0x0D || n == 0x20 || n == 0x85 || n == 0xA0 || n == 0x1680
    || 0x2000 <= n <= 0x200A || n == 0x2028 || n == 0x2029 || n == 0x202F || n == 0x205F || n == 0x3000
  }

  function SkipSpace(s: string): string {
    if s != "" && IsSpace(s[0]) then SkipSpace(s[1..]) else s
  }

  function DropTrailingSpace(s: string): string {
    if s != "" && IsSpace(s[|s| - 1]) then DropTrailingSpace(s[..|s| - 1]) else s
  }

  function TrimSpace(s: string): string {
    DropTrailingSpace(SkipSpace(s))
  }

  function StripQuotes(s: string): string {
    if |s| >= 2 && s[0] == '"' && s[|s| - 1] == '"' then s[1..|s| - 1] else s
  }

  predicate IsEscapable(c: char) {
    c == '?' || c == '=' || c == '&'
  }

  /** Left to right, a backslash before one of ? = & is dropped. */
  function Unescape(s: string): string {
    if s == "" then ""
    else if |s| >= 2 && s[0] == '\\' && IsEscapable(s[1]) then [s[1]] + Unescape(s[2..])
    else [s[0]] + Unescape(s[1..])
  }

  function AddScheme(s: string): string {
    if "meet." <= s then SCHEME + s else s
  }

  /** Length of the first run of non-space characters. */
  function TokenLength(s: string): (n: nat)
    ensures n <= |s|
    ensures s != "" && !IsSpace(s[0]) ==> n > 0
  {
    if s == "" || IsSpace(s[0]) then 0 else 1 + TokenLength(s[1..])
  }

  lemma SkipSpaceShorter(s: string)
    ensures |SkipSpace(s)| <= |s|
    ensures SkipSpace(s) != "" ==> !IsSpace(SkipSpace(s)[0])
  {
  }

  /** The maximal runs of non-space characters, in order. */
  function Fields(s: string): seq<string>
    decreases |s|
  {
    SkipSpaceShorter(s);
    var t := SkipSpace(s);
    if t == "" then [] else [t[..TokenLength(t)]] + Fields(t[TokenLength(t)..])
  }

  predicate Contains(s: string, sub: string) {
    sub <= s || (s != "" && Contains(s[1..], sub))
  }

  // ---------------------------------------------------------------- the link grammar

  predicate Lower(c: char) {
    'a' <= c <= 'z'
  }

  /** Three letters, four letters, three letters. */
  predicate IsCode(s: string) {
    && |s| == 12
    && Lower(s[0]) && Lower(s[1]) && Lower(s[2]) && s[3] == '-'
    && Lower(s[4]) && Lower(s[5]) && Lower(s[6]) && Lower(s[7]) && s[8] == '-'
    && Lower(s[9]) && Lower(s[10]) && Lower(s[11])
  }

  /** Nothing, or a question mark and anything up to the end on the same line. */
  predicate IsQuery(s: string) {
    s == "" || (s[0] == '?' && '\n' !in s)
  }

  datatype Match = Match(code: string, query: string)

  /** The pattern matched at the start of `s`; it must reach the end. */
  function MatchAt(s: string): Option<Match> {
    if HOST + "/" <= s && |s| >= 28 && IsCode(s[16..28]) && IsQuery(s[28..]) then Some(Match(s[16..28], s[28..]))
    else None
  }

  /** The leftmost match. */
  function FindMatch(s: string): Option<Match> {
    if MatchAt(s).Some? || s == "" then MatchAt(s) else FindMatch(s[1..])
  }

  function FirstWithHost(tokens: seq<string>): Option<string> {
    if tokens == [] then None
    else if Contains(tokens[0], HOST) then Some(tokens[0])
    else FirstWithHost(tokens[1..])
  }

  function Normalise(clean: string): ParseResult {
    var candidate := FirstWithHost(Fields(clean));
    if candidate.None? then NoHost
    else
      match FindMatch(candidate.value)
      case None => NoMeetCode
      case Some(m) => Parsed(BASE + m.code + m.query)
  }

  function Parse(raw: string): ParseResult {
    var clean := TrimSpace(raw);
    if clean == "" then EmptyInput else Normalise(AddScheme(Unescape(StripQuotes(clean))))
  }

  /** The parser as written: `clean` rewritten step by step, then a search through its tokens. */
  method ParseURL(raw: string) returns (r: ParseResult)
    ensures r == Parse(raw)
  {
    var clean := TrimSpace(raw);
    if clean == "" {
      return EmptyInput;
    }
    if |clean| >= 2 && clean[0] == '"' && clean[|clean| - 1] == '"' {
      clean := clean[1..|clean| - 1];
    }
    clean := Unescape(clean);
    if "meet." <= clean {
      clean := SCHEME + clean;
    }
    var tokens := Fields(clean);
    var candidate := "";
    var i := 0;
    while i < |tokens|
      invariant 0 <= i <= |tokens| && candidate == ""
      invariant FirstWithHost(tokens) == FirstWithHost(tokens[i..])
    {
      if Contains(tokens[i], HOST) {
        candidate := tokens[i];
        break;
      }
      i := i + 1;
    }
    if candidate == "" {
      return NoHost;
    }
    var m := FindMatch(candidate);
    if m.None? {
      return NoMeetCode;
    }
    return Parsed(BASE + m.value.code + m.value.query);
  }

  // ---------------------------------------------------------------- what the primitives mean

  lemma {:induction false} ContainsMeaning(s: string, sub: string)
    ensures Contains(s, sub) <==> exists i :: 0 <= i <= |s| && sub <= s[i..]
  {
    if sub <= s {
      assert s[0..] == s;
    } else if s != "" {
      ContainsMeaning(s[1..], sub);
      if i :| 0 <= i <= |s[1..]| && sub <= s[1..][i..] {
        assert s[1..][i..] == s[i + 1..];
      }
      if i :| 0 <= i <= |s| && sub <= s[i..] {
        assert i > 0;
        assert s[1..][i - 1..] == s[i..];
      }
    } else {
      assert forall i :: 0 <= i <= |s| ==> s[i..] == s;
    }
  }

  /** The search finds the match that starts furthest left. */
  lemma {:induction false} LeftmostMatch(s: string) returns (i: nat)
    ensures i <= |s|
    ensures FindMatch(s).Some? ==> FindMatch(s) == MatchAt(s[i..]) && forall j :: 0 <= j < i ==> MatchAt(s[j..]).None?
    ensures FindMatch(s).None? ==> forall j :: 0 <= j <= |s| ==> MatchAt(s[j..]).None?
  {
    i := 0;
    assert s[0..] == s;
    if MatchAt(s).None? && s != "" {
      i := LeftmostMatch(s[1..]);
      assert forall j :: 0 <= j <= |s[1..]| ==> s[1..][j..] == s[j + 1..];
      if FindMatch(s).None? {
        forall j | 0 <= j <= |s|
          ensures MatchAt(s[j..]).None?
        {
          assert j > 0 ==> s[1..][j - 1..] == s[j..];
        }
      } else {
        forall j | 0 <= j < i + 1
          ensures MatchAt(s[j..]).None?
        {
          assert j > 0 ==> s[1..][j - 1..] == s[j..];
        }
      }
      i := i + 1;
    }
  }

  predicate NoSpaceIn(s: string) {
    forall i :: 0 <= i < |s| ==> !IsSpace(s[i])
  }

  lemma {:induction false} TokenHasNoSpace(s: string)
    ensures NoSpaceIn(s[..TokenLength(s)])
    ensures TokenLength(s) < |s| ==> IsSpace(s[TokenLength(s)])
  {
    if s != "" && !IsSpace(s[0]) {
      TokenHasNoSpace(s[1..]);
      var n := TokenLength(s[1..]);
      assert s[..n + 1] == [s[0]] + s[1..][..n];
    }
  }

  /** A piece of `s`. */
  ghost predicate Piece(p: string, s: string) {
    exists i, j :: 0 <= i <= j <= |s| && p == s[i..j]
  }

  lemma PieceOf(s: string, i: int, j: int)
    requires 0 <= i <= j <= |s|
    ensures Piece(s[i..j], s)
  {
  }

  lemma SliceOfSlice(s: string, k: int, l: int, i: int, j: int)
    requires 0 <= k <= l <= |s| && 0 <= i <= j <= l - k
    ensures s[k..l][i..j] == s[k + i..k + j]
  {
    var a, b := s[k..l][i..j], s[k + i..k + j];
    forall x | 0 <= x < j - i
      ensures a[x] == b[x]
    {
      assert a[x] == s[k..l][i + x] == s[k + (i + x)];
    }
  }

  lemma PieceTransitive(p: string, q: string, s: string)
    requires Piece(p, q) && Piece(q, s)
    ensures Piece(p, s)
  {
    var i, j :| 0 <= i <= j <= |q| && p == q[i..j];
    var k, l :| 0 <= k <= l <= |s| && q == s[k..l];
    SliceOfSlice(s, k, l, i, j);
  }

  lemma {:induction false} SkipSpacePiece(s: string)
    ensures Piece(SkipSpace(s), s)
  {
    if s != "" && IsSpace(s[0]) {
      SkipSpacePiece(s[1..]);
      PieceOf(s, 1, |s|);
      PieceTransitive(SkipSpace(s), s[1..], s);
    } else {
      assert s == s[0..|s|];
    }
  }

  lemma {:induction false} DropTrailingPiece(s: string)
    ensures Piece(DropTrailingSpace(s), s)
  {
    if s != "" && IsSpace(s[|s| - 1]) {
      DropTrailingPiece(s[..|s| - 1]);
      assert s[0..|s| - 1] == s[..|s| - 1];
      PieceOf(s, 0, |s| - 1);
      PieceTransitive(DropTrailingSpace(s), s[..|s| - 1], s);
    } else {
      assert s == s[0..|s|];
    }
  }

  /** Every token is a piece of the text without white space. */
  lemma {:induction false} FieldsArePieces(s: string, k: nat)
    requires k < |Fields(s)|
    ensures Piece(Fields(s)[k], s) && NoSpaceIn(Fields(s)[k])
    decreases |s|
  {
    SkipSpaceShorter(s);
    var t := SkipSpace(s);
    var n := TokenLength(t);
    SkipSpacePiece(s);
    TokenHasNoSpace(t);
    assert t[..n] == t[0..n] && t[n..] == t[n..|t|];
    PieceOf(t, 0, n);
    PieceOf(t, n, |t|);
    if k == 0 {
      PieceTransitive(t[..n], t, s);
    } else {
      FieldsArePieces(t[n..], k - 1);
      PieceTransitive(Fields(s)[k], t[n..], t);
      PieceTransitive(Fields(s)[k], t, s);
    }
  }

  lemma {:induction false} FirstWithHostIsToken(tokens: seq<string>) returns (k: nat)
    requires FirstWithHost(tokens).Some?
    ensures k < |tokens| && FirstWithHost(tokens) == Some(tokens[k])
  {
    k := 0;
    if !Contains(tokens[0], HOST) {
      k := FirstWithHostIsToken(tokens[1..]);
      k := k + 1;
    }
  }

  // ---------------------------------------------------------------- the result is canonical

  /** The base, a meeting code, and an optional query free of white space. */
  ghost predicate Canonical(link: string) {
    exists code, query :: IsCode(code) && IsQuery(query) && NoSpaceIn(query) && link == BASE + code + query
  }

  lemma MatchMeaning(token: string) returns (i: nat)
    requires FindMatch(token).Some? && NoSpaceIn(token)
    ensures var m := FindMatch(token).value;
            && i + 28 <= |token|
            && m.query == token[i + 28..|token|]
            && IsCode(m.code) && IsQuery(m.query) && NoSpaceIn(m.query)
  {
    i := LeftmostMatch(token);
    assert token[i..][28..] == token[i + 28..|token|];
  }

  /** A match comes from a piece of the text. */
  lemma NormaliseMeaning(clean: string) returns (m: Match)
    requires Normalise(clean).Parsed?
    ensures Normalise(clean) == Parsed(BASE + m.code + m.query)
    ensures IsCode(m.code) && IsQuery(m.query) && NoSpaceIn(m.query) && Piece(m.query, clean)
  {
    var k := FirstWithHostIsToken(Fields(clean));
    var token := Fields(clean)[k];
    FieldsArePieces(clean, k);
    var i := MatchMeaning(token);
    m := FindMatch(token).value;
    PieceOf(token, i + 28, |token|);
    PieceTransitive(m.query, token, clean);
  }

  /** A canonical link in plain terms: the base, letters with two dashes among them, and perhaps a query. */
  predicate LooksCanonical(link: string) {
    && |link| >= 36 && link[..24] == "https://meet.google.com/"
    && (forall k :: 24 <= k < 36 ==> if k == 27 || k == 32 then link[k] == '-' else 'a' <= link[k] <= 'z')
    && (|link| > 36 ==> link[36] == '?')
    && (forall k :: 36 <= k < |link| ==> !IsSpace(link[k]))
  }

  lemma CanonicalParts(link: string)
    requires LooksCanonical(link)
    ensures IsCode(link[24..36]) && IsQuery(link[36..]) && NoSpaceIn(link[36..])
    ensures link == BASE + link[24..36] + link[36..]
  {
    var code, query := link[24..36], link[36..];
    assert forall k :: 0 <= k < 12 ==> code[k] == link[k + 24];
    assert forall k :: 0 <= k < |query| ==> query[k] == link[k + 36];
    assert IsSpace('\n');
  }

  lemma PartsOfCanonical(link: string, code: string, query: string)
    requires IsCode(code) && IsQuery(query) && NoSpaceIn(query) && link == BASE + code + query
    ensures LooksCanonical(link)
  {
    assert |BASE| == 24;
    assert forall k :: 24 <= k < 36 ==> link[k] == code[k - 24];
    assert forall k :: 36 <= k < |link| ==> link[k] == query[k - 36];
  }

  lemma CanonicalMeaning(link: string)
    ensures Canonical(link) <==> LooksCanonical(link)
  {
    if LooksCanonical(link) {
      CanonicalParts(link);
    }
    if Canonical(link) {
      var code, query :| IsCode(code) && IsQuery(query) && NoSpaceIn(query) && link == BASE + code + query;
      PartsOfCanonical(link, code, query);
    }
  }

  /** Every accepted input prints as a canonical link. */
  lemma AcceptedIsCanonical(raw: string)
    requires Parse(raw).Parsed?
    ensures Canonical(Parse(raw).link)
  {
    var m := NormaliseMeaning(AddScheme(Unescape(StripQuotes(TrimSpace(raw)))));
  }

  // ---------------------------------------------------------------- parsing a canonical link again

  /** An escape that Unescape would remove. */
  predicate HasEscape(s: string) {
    exists i :: 0 <= i < |s| - 1 && EscapeAt(s, i)
  }

  predicate EscapeAt(s: string, i: int)
    requires 0 <= i < |s| - 1
  {
    s[i] == '\\' && IsEscapable(s[i + 1])
  }

  lemma {:induction false} UnescapeShorter(s: string)
    ensures |Unescape(s)| <= |s|
    ensures Unescape(s) == s <==> !HasEscape(s)
    decreases |s|
  {
    if s != "" {
      if |s| >= 2 && s[0] == '\\' && IsEscapable(s[1]) {
        UnescapeShorter(s[2..]);
        assert EscapeAt(s, 0);
      } else {
        UnescapeShorter(s[1..]);
        assert s == [s[0]] + s[1..];
        if i :| 0 <= i < |s| - 1 && EscapeAt(s, i) {
          assert EscapeAt(s[1..], i - 1);
        }
        if i :| 0 <= i < |s[1..]| - 1 && EscapeAt(s[1..], i) {
          assert EscapeAt(s, i + 1);
        }
      }
    }
  }

  /** A prefix that does not end in a backslash and has no escape is copied. */
  lemma {:induction false} UnescapeAfter(p: string, s: string)
    requires '\\' !in p
    ensures Unescape(p + s) == p + Unescape(s)
  {
    if p == "" {
      assert p + s == s;
    } else {
      assert p[0] in p && forall c :: c in p[1..] ==> c in p;
      assert (p + s)[1..] == p[1..] + s;
      UnescapeAfter(p[1..], s);
      assert p + Unescape(s) == [p[0]] + (p[1..] + Unescape(s));
    }
  }

  lemma {:induction false} UnescapeKeepsNoSpace(s: string)
    requires NoSpaceIn(s)
    ensures NoSpaceIn(Unescape(s))
    decreases |s|
  {
    if s != "" {
      if |s| >= 2 && s[0] == '\\' && IsEscapable(s[1]) {
        UnescapeKeepsNoSpace(s[2..]);
      } else {
        UnescapeKeepsNoSpace(s[1..]);
      }
    }
  }

  lemma NoSpaceOneToken(s: string)
    requires s != "" && NoSpaceIn(s)
    ensures Fields(s) == [s]
  {
    WholeToken(s);
    assert SkipSpace(s) == s && s[..|s|] == s && s[|s|..] == "";
    assert Fields("") == [];
  }

  lemma {:induction false} WholeToken(s: string)
    requires NoSpaceIn(s)
    ensures TokenLength(s) == |s|
  {
    if s != "" {
      WholeToken(s[1..]);
    }
  }

  lemma TrimNothing(s: string)
    requires s != "" && NoSpaceIn(s)
    ensures TrimSpace(s) == s
  {
  }

  lemma NoMatchAtScheme(s: string, i: nat)
    requires i < 8 && SCHEME <= s
    ensures MatchAt(s[i..]).None?
  {
    assert s[i..][0] == s[i] == SCHEME[i];
    assert (HOST + "/")[0] == 'm';
  }

  lemma MatchCanonical(code: string, query: string)
    requires IsCode(code) && IsQuery(query)
    ensures FindMatch(BASE + code + query) == Some(Match(code, query))
    ensures Contains(BASE + code + query, HOST)
  {
    var s := BASE + code + query;
    var tail := s[8..];
    assert SCHEME <= s;
    assert tail == HOST + "/" + code + query;
    assert tail[16..28] == code && tail[28..] == query;
    assert MatchAt(tail) == Some(Match(code, query));
    var i := LeftmostMatch(s);
    if i < 8 {
      NoMatchAtScheme(s, i);
    }
    assert HOST <= s[8..];
    ContainsMeaning(s, HOST);
  }

  lemma CanonicalText(code: string, query: string)
    requires IsCode(code) && NoSpaceIn(query)
    ensures var s := BASE + code + query; NoSpaceIn(s) && s != "" && s[0] == 'h'
    ensures '\\' !in BASE + code
  {
    assert NoSpaceIn(BASE) && NoSpaceIn(code);
    assert '\\' !in BASE && '\\' !in code;
  }

  lemma NormaliseCanonical(code: string, query: string)
    requires IsCode(code) && IsQuery(query) && NoSpaceIn(query)
    ensures Normalise(BASE + code + query) == Parsed(BASE + code + query)
  {
    CanonicalText(code, query);
    NoSpaceOneToken(BASE + code + query);
    MatchCanonical(code, query);
  }

  /** What parsing a canonical link gives: the same link with its query unescaped. */
  lemma ParseCanonical(code: string, query: string)
    requires IsCode(code) && IsQuery(query) && NoSpaceIn(query)
    ensures Parse(BASE + code + query) == Parsed(BASE + code + Unescape(query))
  {
    var s, u := BASE + code + query, BASE + code + Unescape(query);
    CanonicalText(code, query);
    TrimNothing(s);
    assert StripQuotes(s) == s;
    UnescapeAfter(BASE + code, query);
    UnescapedQuery(query);
    CanonicalText(code, Unescape(query));
    assert "meet."[0] == 'm';
    assert AddScheme(u) == u;
    NormaliseCanonical(code, Unescape(query));
  }

  lemma UnescapedQuery(query: string)
    requires IsQuery(query) && NoSpaceIn(query)
    ensures IsQuery(Unescape(query)) && NoSpaceIn(Unescape(query))
  {
    UnescapeKeepsNoSpace(query);
    assert IsSpace('\n');
  }

  lemma ReparseCanonical(code: string, query: string)
    requires IsCode(code) && IsQuery(query) && NoSpaceIn(query)
    ensures var link := BASE + code + query;
            Parse(link) == Parsed(link) <==> !HasEscape(link)
  {
    var head := BASE + code;
    ParseCanonical(code, query);
    CanonicalText(code, query);
    UnescapeAfter(head, query);
    UnescapeShorter(head + query);
  }

  /** Parsing an accepted link again returns it unchanged exactly if it holds no escape of ? = &. */
  lemma ReparseExactly(raw: string)
    requires Parse(raw).Parsed?
    ensures var link := Parse(raw).link;
            Parse(link) == Parsed(link) <==> !HasEscape(link)
  {
    var m := NormaliseMeaning(AddScheme(Unescape(StripQuotes(TrimSpace(raw)))));
    ReparseCanonical(m.code, m.query);
  }

  predicate AdjacentBackslashes(s: string) {
    exists i :: 0 <= i < |s| - 1 && s[i] == '\\' && s[i + 1] == '\\'
  }

  lemma {:induction false} UnescapeLeavesNoEscape(s: string)
    requires !AdjacentBackslashes(s)
    ensures !HasEscape(Unescape(s))
    decreases |s|
  {
    if s != "" {
      var u := Unescape(s);
      if |s| >= 2 && s[0] == '\\' && IsEscapable(s[1]) {
        assert forall i :: 0 <= i < |s[2..]| ==> s[2..][i] == s[i + 2];
        UnescapeLeavesNoEscape(s[2..]);
        assert forall i :: 1 <= i < |u| - 1 ==> EscapeAt(u, i) == EscapeAt(Unescape(s[2..]), i - 1);
      } else {
        assert forall i :: 0 <= i < |s[1..]| ==> s[1..][i] == s[i + 1];
        UnescapeLeavesNoEscape(s[1..]);
        assert forall i :: 1 <= i < |u| - 1 ==> EscapeAt(u, i) == EscapeAt(Unescape(s[1..]), i - 1);
      }
    }
  }

  lemma PieceKeepsNoAdjacent(p: string, s: string)
    requires Piece(p, s) && !AdjacentBackslashes(s)
    ensures !AdjacentBackslashes(p)
  {
    var i, j :| 0 <= i <= j <= |s| && p == s[i..j];
    forall k | 0 <= k < |p| - 1
      ensures !(p[k] == '\\' && p[k + 1] == '\\')
    {
      assert p[k] == s[i + k] && p[k + 1] == s[i + k + 1];
    }
  }

  lemma PieceKeepsNoEscape(p: string, s: string)
    requires Piece(p, s) && !HasEscape(s)
    ensures !HasEscape(p)
  {
    var i, j :| 0 <= i <= j <= |s| && p == s[i..j];
    forall k | 0 <= k < |p| - 1
      ensures !EscapeAt(p, k)
    {
      assert EscapeAt(p, k) == EscapeAt(s, i + k);
    }
  }

  lemma CleanedIsPiece(raw: string)
    ensures Piece(StripQuotes(TrimSpace(raw)), raw)
  {
    var t := SkipSpace(raw);
    SkipSpacePiece(raw);
    DropTrailingPiece(t);
    var trimmed := TrimSpace(raw);
    PieceTransitive(trimmed, t, raw);
    var stripped := StripQuotes(trimmed);
    assert trimmed == trimmed[0..|trimmed|];
    PieceTransitive(stripped, trimmed, raw);
  }

  lemma SchemeAddsNoEscape(s: string)
    requires !HasEscape(s)
    ensures !HasEscape(AddScheme(s))
  {
    UnescapeShorter(s);
    UnescapeAfter(SCHEME, s);
    UnescapeShorter(SCHEME + s);
  }

  /** For every input without two adjacent backslashes, parsing is idempotent. */
  lemma ReparseUnchanged(raw: string)
    requires Parse(raw).Parsed? && !AdjacentBackslashes(raw)
    ensures Parse(Parse(raw).link) == Parse(raw)
  {
    var inner := StripQuotes(TrimSpace(raw));
    var clean := AddScheme(Unescape(inner));
    CleanedIsPiece(raw);
    PieceKeepsNoAdjacent(inner, raw);
    UnescapeLeavesNoEscape(inner);
    SchemeAddsNoEscape(Unescape(inner));
    var m := NormaliseMeaning(clean);
    PieceKeepsNoEscape(m.query, clean);
    UnescapeShorter(m.query);
    ParseCanonical(m.code, m.query);
  }

  /** A backslash before another one is not an escape, and the second is. */
  lemma UnescapeTwice(c: char)
    requires IsEscapable(c)
    ensures Unescape(['?', '\\', '\\', c]) == ['?', '\\', c] && Unescape(['?', '\\', c]) == ['?', c]
  {
    var one := ['\\', c];
    assert one[2..] == "" && Unescape(one) == [c];
    var two := ['\\', '\\', c];
    assert two[1..] == one && Unescape(two) == ['\\', c];
    assert ['?', '\\', '\\', c][1..] == two && ['?', '\\', c][1..] == one;
  }

  lemma QueryText(c: char)
    requires IsEscapable(c)
    ensures IsQuery(['?', '\\', '\\', c]) && NoSpaceIn(['?', '\\', '\\', c])
    ensures IsQuery(['?', '\\', c]) && NoSpaceIn(['?', '\\', c])
  {
  }

  /** It is not idempotent in general: one escape is removed each time, for any code and any of ? = &. */
  lemma ReparseCanChange(code: string, c: char)
    requires IsCode(code) && IsEscapable(c)
    ensures var link := BASE + code + ['?', '\\', '\\', c];
            Parse(link).Parsed? && Parse(Parse(link).link) != Parse(link)
  {
    var q2, q1, q0 := ['?', '\\', '\\', c], ['?', '\\', c], ['?', c];
    UnescapeTwice(c);
    QueryText(c);
    ParseCanonical(code, q2);
    ParseCanonical(code, q1);
    assert |BASE + code + q1| == |BASE + code + q0| + 1;
  }
}
