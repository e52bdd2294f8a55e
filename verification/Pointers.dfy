// The JSON Pointer codecs (RFC 6901, sections 3 and 4): the escaping of
// internal/plans/openapi.go, the decoder of internal/plans/redact.go, and the
// two-pass decoder of examples/petstore/mcp-server/executor.go.
module Pointers {
  import opened Outcomes
  import opened Strings

  // ------------------------------------------------------------ tokens

  // strings.ReplaceAll with a one-character pattern.
  function ReplaceChar(s: string, old_: char, new_: string): string {
    if s == "" then "" else (if s[0] == old_ then new_ else [s[0]]) + ReplaceChar(s[1..], old_, new_)
  }

  // strings.ReplaceAll with a two-character pattern: leftmost matches first,
  // never overlapping.
  function ReplacePair(s: string, a: char, b: char, new_: char): string {
    if |s| < 2 then s
    else if s[0] == a && s[1] == b then [new_] + ReplacePair(s[2..], a, b, new_)
    else [s[0]] + ReplacePair(s[1..], a, b, new_)
  }

  // jsonPointerEscape
  function Escape(s: string): string {
    ReplaceChar(ReplaceChar(s, '~', "~0"), '/', "~1")
  }

  // The executor's unescapePointer
  function UnescapeTwoPass(s: string): string {
    ReplacePair(ReplacePair(s, '~', '1', '/'), '~', '0', '~')
  }

  function Prepend<T>(prefix: seq<T>, rest: Option<seq<T>>): Option<seq<T>> {
    match rest case None => None case Some(r) => Some(prefix + r)
  }

  lemma PrependPrepend<T>(a: seq<T>, b: seq<T>, rest: Option<seq<T>>)
    ensures Prepend(a, Prepend(b, rest)) == Prepend(a + b, rest)
  {
    if rest.Some? {
      assert a + (b + rest.value) == a + b + rest.value;
    }
  }

  lemma PrependNothing<T>(a: seq<T>, rest: Option<seq<T>>)
    ensures Prepend([], rest) == rest && Prepend(a, Some([])) == Some(a)
  {
    assert a + [] == a;
    if rest.Some? {
      assert [] + rest.value == rest.value;
    }
  }

  // unescapePointerToken: None is the "bad escape" error.
  function Unescape(s: string): Option<string> {
    if s == "" then Some("")
    else if s[0] != '~' then Prepend([s[0]], Unescape(s[1..]))
    else if |s| < 2 || (s[1] != '0' && s[1] != '1') then None
    else Prepend([if s[1] == '0' then '~' else '/'], Unescape(s[2..]))
  }

  // The source's byte loop with its string builder.
  method UnescapeToken(s: string) returns (r: Option<string>)
    ensures r == Unescape(s)
  {
    var b := "";
    var i := 0;
    assert s[0..] == s;
    PrependNothing("", Unescape(s));
    while i < |s|
      invariant 0 <= i <= |s|
      invariant Unescape(s) == Prepend(b, Unescape(s[i..]))
    {
      if s[i] != '~' {
        assert s[i..][1..] == s[i + 1..];
        PrependPrepend(b, [s[i]], Unescape(s[i + 1..]));
        b := b + [s[i]];
      } else {
        if i + 1 >= |s| || (s[i + 1] != '0' && s[i + 1] != '1') {
          return None;
        }
        assert s[i..][2..] == s[i + 2..];
        PrependPrepend(b, [if s[i + 1] == '0' then '~' else '/'], Unescape(s[i + 2..]));
        if s[i + 1] == '0' {
          b := b + ['~'];
        } else {
          b := b + ['/'];
        }
        i := i + 1;
      }
      i := i + 1;
    }
    PrependNothing(b, None);
    return Some(b);
  }

  lemma ReplaceOne(c: char, old_: char, new_: string)
    ensures ReplaceChar([c], old_, new_) == if c == old_ then new_ else [c]
  {
    assert [c][1..] == "" && new_ + "" == new_ && [c] + "" == [c];
  }

  // Escaping decomposes character by character.
  lemma {:induction false} EscapeSplits(s: string)
    requires s != ""
    ensures Escape(s) == Escape(s[..1]) + Escape(s[1..])
    ensures Escape(s[..1]) == if s[0] == '~' then "~0" else if s[0] == '/' then "~1" else [s[0]]
  {
    var head := ReplaceChar([s[0]], '~', "~0");
    var tail := ReplaceChar(s[1..], '~', "~0");
    assert s[..1] == [s[0]] && [s[0]][1..] == "";
    ReplaceOne(s[0], '~', "~0");
    assert ReplaceChar(s, '~', "~0") == head + tail;
    ReplaceConcat(head, tail, '/', "~1");
    assert "~0"[1..] == "0" && "0"[1..] == "";
  }

  lemma {:induction false} ReplaceConcat(s: string, t: string, old_: char, new_: string)
    ensures ReplaceChar(s + t, old_, new_) == ReplaceChar(s, old_, new_) + ReplaceChar(t, old_, new_)
  {
    if s == "" {
      assert s + t == t;
    } else {
      assert (s + t)[1..] == s[1..] + t;
      ReplaceConcat(s[1..], t, old_, new_);
    }
  }

  // An escaped token has no slash, so it is one reference token of a pointer.
  lemma {:induction false} EscapeHasNoSlash(s: string)
    ensures '/' !in Escape(s)
  {
    if s != "" {
      EscapeSplits(s);
      EscapeHasNoSlash(s[1..]);
    }
  }

  // The escape of one character, decoded in front of anything.
  lemma UnescapeStep(c: char, e: string)
    ensures c == '~' ==> Unescape("~0" + e) == Prepend([c], Unescape(e))
    ensures c == '/' ==> Unescape("~1" + e) == Prepend([c], Unescape(e))
    ensures c != '~' && c != '/' ==> Unescape([c] + e) == Prepend([c], Unescape(e))
  {
    assert ("~0" + e)[2..] == e && ("~1" + e)[2..] == e && ([c] + e)[1..] == e;
  }

  // Decoding undoes encoding, for every string.
  lemma {:induction false} UnescapeEscape(s: string)
    ensures Unescape(Escape(s)) == Some(s)
  {
    if s != "" {
      EscapeSplits(s);
      UnescapeStep(s[0], Escape(s[1..]));
      UnescapeEscape(s[1..]);
      assert s == [s[0]] + s[1..];
    }
  }

  // Encoding undoes decoding, on every token that decodes and holds no slash.
  lemma {:induction false} EscapeUnescape(t: string)
    requires Unescape(t).Some? && '/' !in t
    ensures Escape(Unescape(t).value) == t
  {
    if t != "" {
      var n := if t[0] == '~' then 2 else 1;
      EscapeUnescape(t[n..]);
      var s := Unescape(t).value;
      EscapeSplits(s);
      assert s[1..] == Unescape(t[n..]).value;
      assert t == t[..n] + t[n..];
    }
  }

  lemma PairPlain(c: char, e: string, b: char, new_: char)
    requires c != '~'
    ensures ReplacePair([c] + e, '~', b, new_) == [c] + ReplacePair(e, '~', b, new_)
  {
    assert ([c] + e)[1..] == e;
  }

  lemma PairMatch(b: char, e: string, new_: char)
    ensures ReplacePair(['~', b] + e, '~', b, new_) == [new_] + ReplacePair(e, '~', b, new_)
  {
    assert (['~', b] + e)[2..] == e;
  }

  lemma PairPasses(c: char, e: string, b: char, new_: char)
    requires c != b && c != '~'
    ensures ReplacePair(['~', c] + e, '~', b, new_) == ['~', c] + ReplacePair(e, '~', b, new_)
  {
    var s := ['~', c] + e;
    assert s[1..] == [c] + e;
    PairPlain(c, e, b, new_);
    assert ['~'] + ([c] + ReplacePair(e, '~', b, new_)) == ['~', c] + ReplacePair(e, '~', b, new_);
  }

  // The two passes on one decoded character in front of anything.
  lemma TwoPassStep(e: string)
    ensures UnescapeTwoPass("~0" + e) == "~" + UnescapeTwoPass(e)
    ensures UnescapeTwoPass("~1" + e) == "/" + UnescapeTwoPass(e)
  {
    var once := ReplacePair(e, '~', '1', '/');
    PairPasses('0', e, '1', '/');
    PairMatch('0', once, '~');
    PairMatch('1', e, '/');
    PairPlain('/', once, '0', '~');
  }

  lemma TwoPassPlain(c: char, e: string)
    requires c != '~'
    ensures UnescapeTwoPass([c] + e) == [c] + UnescapeTwoPass(e)
  {
    PairPlain(c, e, '1', '/');
    PairPlain(c, ReplacePair(e, '~', '1', '/'), '0', '~');
  }

  // The executor's two replacements decode exactly as the one-pass decoder
  // does, on every token that decodes.
  lemma {:induction false} TwoPassAgrees(t: string)
    requires Unescape(t).Some?
    ensures UnescapeTwoPass(t) == Unescape(t).value
  {
    if t != "" && t[0] == '~' {
      TwoPassAgrees(t[2..]);
      TwoPassStep(t[2..]);
      assert t == t[..2] + t[2..];
      assert t[..2] == "~0" || t[..2] == "~1";
    } else if t != "" {
      TwoPassAgrees(t[1..]);
      TwoPassPlain(t[0], t[1..]);
      assert t == [t[0]] + t[1..];
    }
  }

  // ------------------------------------------------------------ pointers

  function UnescapeAll(parts: seq<string>): Option<seq<string>> {
    if parts == [] then Some([])
    else match Unescape(parts[0])
      case None => None
      case Some(t) => Prepend([t], UnescapeAll(parts[1..]))
  }

  // parseJSONPointer: None is the "malformed pointer" error.
  function Parse(p: string): Option<seq<string>> {
    if p == "" then Some([])
    else if p[0] != '/' then None
    else UnescapeAll(Split(p[1..], '/'))
  }

  // The source's loop over the split parts.
  method ParsePointer(p: string) returns (r: Option<seq<string>>)
    ensures r == Parse(p)
  {
    if p == "" {
      return Some([]);
    }
    if p[0] != '/' {
      return None;
    }
    var parts := Split(p[1..], '/');
    var out: seq<string> := [];
    var i := 0;
    assert parts[0..] == parts;
    PrependNothing([], UnescapeAll(parts));
    while i < |parts|
      invariant 0 <= i <= |parts|
      invariant UnescapeAll(parts) == Prepend(out, UnescapeAll(parts[i..]))
    {
      var token := UnescapeToken(parts[i]);
      assert parts[i..][1..] == parts[i + 1..];
      if token.None? {
        return None;
      }
      PrependPrepend(out, [token.value], UnescapeAll(parts[i + 1..]));
      out := out + [token.value];
      i := i + 1;
    }
    PrependNothing(out, None);
    return Some(out);
  }

  // The pointer that names the token list.
  function Format(tokens: seq<string>): string {
    if tokens == [] then "" else "/" + Join(EscapeAll(tokens), '/')
  }

  function EscapeAll(tokens: seq<string>): (parts: seq<string>)
    ensures |parts| == |tokens|
    ensures forall i :: 0 <= i < |parts| ==> parts[i] == Escape(tokens[i])
  {
    seq(|tokens|, i requires 0 <= i < |tokens| => Escape(tokens[i]))
  }

  lemma {:induction false} UnescapeEscapeAll(tokens: seq<string>)
    ensures UnescapeAll(EscapeAll(tokens)) == Some(tokens)
  {
    if tokens != [] {
      UnescapeEscape(tokens[0]);
      UnescapeEscapeAll(tokens[1..]);
      assert EscapeAll(tokens)[1..] == EscapeAll(tokens[1..]);
      assert tokens == [tokens[0]] + tokens[1..];
    }
  }

  lemma {:induction false} EscapeUnescapeAll(parts: seq<string>)
    requires UnescapeAll(parts).Some? && forall i :: 0 <= i < |parts| ==> '/' !in parts[i]
    ensures |UnescapeAll(parts).value| == |parts|
    ensures EscapeAll(UnescapeAll(parts).value) == parts
  {
    if parts != [] {
      EscapeUnescape(parts[0]);
      EscapeUnescapeAll(parts[1..]);
      var tokens := UnescapeAll(parts).value;
      assert EscapeAll(tokens) == [Escape(tokens[0])] + EscapeAll(tokens[1..]);
    }
  }

  // Parsing and formatting are inverse: every token list is the parse of its
  // pointer, and every pointer that parses is the format of its token list.
  lemma ParseFormat(tokens: seq<string>)
    ensures Parse(Format(tokens)) == Some(tokens)
  {
    if tokens != [] {
      forall i | 0 <= i < |tokens| ensures '/' !in EscapeAll(tokens)[i] {
        EscapeHasNoSlash(tokens[i]);
      }
      SplitJoin(EscapeAll(tokens), '/');
      UnescapeEscapeAll(tokens);
      assert Format(tokens)[1..] == Join(EscapeAll(tokens), '/');
    }
  }

  lemma FormatParse(p: string)
    requires Parse(p).Some?
    ensures Format(Parse(p).value) == p
  {
    if p != "" {
      PartsHaveNoSeparator(p[1..], '/');
      EscapeUnescapeAll(Split(p[1..], '/'));
      JoinSplit(p[1..], '/');
    }
  }

  // ------------------------------------------------------------ operation paths

  const MARKER := "#/paths/"

  ghost predicate OccursAt(s: string, pat: string, i: int) {
    0 <= i && i + |pat| <= |s| && s[i..i + |pat|] == pat
  }

  lemma OccursInTail(s: string, pat: string)
    requires s != ""
    ensures forall j :: j > 0 ==> (OccursAt(s, pat, j) <==> OccursAt(s[1..], pat, j - 1))
  {
    forall j | j > 0
      ensures OccursAt(s, pat, j) <==> OccursAt(s[1..], pat, j - 1)
    {
      if j + |pat| <= |s| {
        assert s[1..][j - 1..j - 1 + |pat|] == s[j..j + |pat|];
      }
    }
  }

  // strings.Index: the first occurrence, or None for -1.
  function Index(s: string, pat: string): (r: Option<nat>)
    ensures r.Some? ==> OccursAt(s, pat, r.value) && forall j :: 0 <= j < r.value ==> !OccursAt(s, pat, j)
    ensures r.None? ==> forall j :: !OccursAt(s, pat, j)
  {
    if |s| < |pat| then None
    else if s[..|pat|] == pat then Some(0)
    else
      OccursInTail(s, pat);
      match Index(s[1..], pat) case None => None case Some(i) => Some(i + 1)
  }

  // parseOperationPath: (path, method), or None when the source reports !ok.
  function ParseOperationPath(operationPath: string): Option<(string, string)> {
    match Index(operationPath, MARKER)
    case None => None
    case Some(idx) =>
      var parts := Split(operationPath[idx..][2..], '/');
      if |parts| < 3 || parts[0] != "paths" then None
      else
        var path, method_ := UnescapeTwoPass(parts[1]), Lower(UnescapeTwoPass(parts[2]));
        if path != "" && method_ != "" then Some((path, method_)) else None
  }

  // Any operation path whose document part does not itself contain the marker
  // gives back the path and the (lower-cased) method it was built from, with or
  // without further segments.
  lemma ParseOperationPathInverts(document: string, path: string, method_: string, suffix: string)
    requires forall j :: 0 <= j < |document| ==> !OccursAt(document + MARKER, MARKER, j)
    requires path != "" && method_ != ""
    requires suffix == "" || suffix[0] == '/'
    ensures ParseOperationPath(document + MARKER + Escape(path) + "/" + Escape(method_) + suffix)
            == Some((path, Lower(method_)))
  {
    var p, m := Escape(path), Escape(method_);
    var tail := p + "/" + (m + suffix);
    assert document + MARKER + p + "/" + m + suffix == document + MARKER + tail;
    MarkerFound(document, tail);
    MarkerStripped(document, tail);
    EscapeHasNoSlash(path);
    EscapeHasNoSlash(method_);
    SplitThree("paths", p, m, suffix);
    UnescapeEscape(path);
    UnescapeEscape(method_);
    TwoPassAgrees(p);
    TwoPassAgrees(m);
  }

  lemma MarkerStripped(document: string, tail: string)
    ensures (document + MARKER + tail)[|document|..][2..] == "paths" + "/" + tail
  {
  }

  lemma SplitThree(a: string, b: string, c: string, suffix: string)
    requires '/' !in a && '/' !in b && '/' !in c
    requires suffix == "" || suffix[0] == '/'
    ensures var parts := Split(a + "/" + (b + "/" + (c + suffix)), '/');
            |parts| >= 3 && parts[0] == a && parts[1] == b && parts[2] == c
  {
    SplitPrefix(a, '/', b + "/" + (c + suffix));
    SplitPrefix(b, '/', c + suffix);
    SplitFirst(c, suffix);
  }

  lemma SplitFirst(c: string, suffix: string)
    requires '/' !in c
    requires suffix == "" || suffix[0] == '/'
    ensures Split(c + suffix, '/')[0] == c
  {
    if suffix == "" {
      assert c + suffix == c;
      SplitPrefix(c, '/', "");
    } else {
      SplitPrefix(c, '/', suffix[1..]);
      assert c + "/" + suffix[1..] == c + suffix;
    }
  }

  lemma MarkerFound(document: string, tail: string)
    requires forall j :: 0 <= j < |document| ==> !OccursAt(document + MARKER, MARKER, j)
    ensures Index(document + MARKER + tail, MARKER) == Some(|document|)
  {
    var whole := document + MARKER + tail;
    assert whole[|document|..|document| + |MARKER|] == MARKER;
    assert OccursAt(whole, MARKER, |document|);
    var i := Index(whole, MARKER).value;
    if i < |document| {
      assert whole[i..i + |MARKER|] == (document + MARKER)[i..i + |MARKER|];
      assert OccursAt(document + MARKER, MARKER, i);
    }
  }
}
