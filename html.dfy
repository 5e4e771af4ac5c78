/**
 * Python's `html.escape(s, quote=True)`: five replacements applied one after
 * the other, `&` first so that the entities introduced later are not escaped
 * again.
 */
module Html {

  /** `s.replace(c, rep)` for a single-character pattern. */
  function Replace(s: string, c: char, rep: string): (r: string)
  {
    if s == [] then []
    else (if s[0] == c then rep else [s[0]]) + Replace(s[1..], c, rep)
  }

  /** `html.escape(s)` written as the standard library writes it. */
  function Escape(s: string): string
  {
    var s1 := Replace(s, '&', "&amp;");
    var s2 := Replace(s1, '<', "&lt;");
    var s3 := Replace(s2, '>', "&gt;");
    var s4 := Replace(s3, '"', "&quot;");
    Replace(s4, '\'', "&#x27;")
  }

  /** The entity that escaping turns one character into. */
  function EscapeChar(c: char): string
  {
    match c
    case '&' => "&amp;"
    case '<' => "&lt;"
    case '>' => "&gt;"
    case '"' => "&quot;"
    case '\'' => "&#x27;"
    case _ => [c]
  }

  /** Escaping character by character: the reference the sequential form is proved equal to. */
  function EscapeEach(s: string): string
  {
    if s == [] then [] else EscapeChar(s[0]) + EscapeEach(s[1..])
  }

  /** Decodes the five entities that escaping produces; every other character stands for itself. */
  function Unescape(s: string): string
  {
    if s == [] then []
    else if |s| >= 5 && s[..5] == "&amp;" then "&" + Unescape(s[5..])
    else if |s| >= 4 && s[..4] == "&lt;" then "<" + Unescape(s[4..])
    else if |s| >= 4 && s[..4] == "&gt;" then ">" + Unescape(s[4..])
    else if |s| >= 6 && s[..6] == "&quot;" then "\"" + Unescape(s[6..])
    else if |s| >= 6 && s[..6] == "&#x27;" then "'" + Unescape(s[6..])
    else [s[0]] + Unescape(s[1..])
  }

  lemma {:induction false} ReplaceAppend(a: string, b: string, c: char, rep: string)
    ensures Replace(a + b, c, rep) == Replace(a, c, rep) + Replace(b, c, rep)
  {
    if a == [] {
      assert a + b == b;
    } else {
      assert (a + b)[0] == a[0] && (a + b)[1..] == a[1..] + b;
      ReplaceAppend(a[1..], b, c, rep);
    }
  }

  lemma {:induction false} ReplaceAbsent(s: string, c: char, rep: string)
    requires c !in s
    ensures Replace(s, c, rep) == s
  {
    if s != [] {
      ReplaceAbsent(s[1..], c, rep);
    }
  }

  /** Escaping distributes over concatenation. */
  lemma EscapeAppend(a: string, b: string)
    ensures Escape(a + b) == Escape(a) + Escape(b)
  {
    var a1, b1 := Replace(a, '&', "&amp;"), Replace(b, '&', "&amp;");
    ReplaceAppend(a, b, '&', "&amp;");
    var a2, b2 := Replace(a1, '<', "&lt;"), Replace(b1, '<', "&lt;");
    ReplaceAppend(a1, b1, '<', "&lt;");
    var a3, b3 := Replace(a2, '>', "&gt;"), Replace(b2, '>', "&gt;");
    ReplaceAppend(a2, b2, '>', "&gt;");
    var a4, b4 := Replace(a3, '"', "&quot;"), Replace(b3, '"', "&quot;");
    ReplaceAppend(a3, b3, '"', "&quot;");
    ReplaceAppend(a4, b4, '\'', "&#x27;");
  }

  lemma ReplaceUnit(c: char, d: char, rep: string)
    ensures Replace([c], d, rep) == if c == d then rep else [c]
  {
    assert [c][1..] == [];
  }

  /** The last four replacements leave a string without `<`, `>`, `"`, `'` alone. */
  lemma LaterPassesIdentity(s: string)
    requires forall x | x in s :: x !in "<>\"'"
    ensures Replace(Replace(Replace(Replace(s, '<', "&lt;"), '>', "&gt;"), '"', "&quot;"), '\'', "&#x27;") == s
  {
    ReplaceAbsent(s, '<', "&lt;");
    ReplaceAbsent(s, '>', "&gt;");
    ReplaceAbsent(s, '"', "&quot;");
    ReplaceAbsent(s, '\'', "&#x27;");
  }

  /** A string without `>`, `"` and `'` survives the last three replacements. */
  lemma LastThreePassIdentity(s: string)
    requires '>' !in s && '"' !in s && '\'' !in s
    ensures Replace(Replace(Replace(s, '>', "&gt;"), '"', "&quot;"), '\'', "&#x27;") == s
  {
    ReplaceAbsent(s, '>', "&gt;");
    ReplaceAbsent(s, '"', "&quot;");
    ReplaceAbsent(s, '\'', "&#x27;");
  }

  /** The last two replacements applied to a character that none of the earlier ones matched. */
  lemma QuotePasses(c: char)
    requires c != '&' && c != '<' && c != '>'
    ensures Replace(Replace([c], '"', "&quot;"), '\'', "&#x27;") == EscapeChar(c)
  {
    ReplaceUnit(c, '"', "&quot;");
    if c == '"' {
      ReplaceAbsent("&quot;", '\'', "&#x27;");
    } else {
      ReplaceUnit(c, '\'', "&#x27;");
    }
  }

  /** The last three replacements applied to a character other than `&` and `<`. */
  lemma GreaterPasses(c: char)
    requires c != '&' && c != '<'
    ensures Replace(Replace(Replace([c], '>', "&gt;"), '"', "&quot;"), '\'', "&#x27;") == EscapeChar(c)
  {
    ReplaceUnit(c, '>', "&gt;");
    if c == '>' {
      ReplaceAbsent("&gt;", '"', "&quot;");
      ReplaceAbsent("&gt;", '\'', "&#x27;");
    } else {
      QuotePasses(c);
    }
  }

  /** The last four replacements applied to a character other than `&`. */
  lemma LessPasses(c: char)
    requires c != '&'
    ensures Replace(Replace(Replace(Replace([c], '<', "&lt;"), '>', "&gt;"), '"', "&quot;"), '\'', "&#x27;")
            == EscapeChar(c)
  {
    ReplaceUnit(c, '<', "&lt;");
    if c == '<' {
      LastThreePassIdentity("&lt;");
    } else {
      GreaterPasses(c);
    }
  }

  /** Escaping one character gives exactly its entity. */
  lemma EscapeOne(c: char)
    ensures Escape([c]) == EscapeChar(c)
  {
    ReplaceUnit(c, '&', "&amp;");
    if c == '&' {
      LaterPassesIdentity("&amp;");
    } else {
      LessPasses(c);
    }
  }

  /** The five sequential replacements equal the character-by-character escape. */
  lemma {:induction false} EscapeIsPerCharacter(s: string)
    ensures Escape(s) == EscapeEach(s)
  {
    if s != [] {
      assert s == [s[0]] + s[1..];
      EscapeAppend([s[0]], s[1..]);
      EscapeOne(s[0]);
      EscapeIsPerCharacter(s[1..]);
    }
  }

  /** Escaping loses nothing: the entities decode back to the original text. */
  lemma {:induction false} UnescapeEscape(s: string)
    ensures Unescape(Escape(s)) == s
  {
    EscapeIsPerCharacter(s);
    UnescapeEscapeEach(s);
  }

  lemma {:induction false} UnescapeEscapeEach(s: string)
    ensures Unescape(EscapeEach(s)) == s
  {
    if s != [] {
      UnescapeEntity(s[0], EscapeEach(s[1..]));
      UnescapeEscapeEach(s[1..]);
      assert s == [s[0]] + s[1..];
    }
  }

  /** Decoding consumes exactly one entity at the front. */
  lemma UnescapeEntity(c: char, rest: string)
    ensures Unescape(EscapeChar(c) + rest) == [c] + Unescape(rest)
  {
    var e := EscapeChar(c);
    var t := e + rest;
    assert t[..|e|] == e && t[|e|..] == rest;
    if c !in "&<>\"'" {
      assert t[0] == c && t[1..] == rest;
      assert |t| >= 4 ==> t[..4][0] == c;
      assert |t| >= 5 ==> t[..5][0] == c;
      assert |t| >= 6 ==> t[..6][0] == c;
    } else if c == '<' || c == '>' {
      assert t[..4] == e;
      assert |t| >= 5 ==> t[..5][1] == e[1];
    } else if c == '"' || c == '\'' {
      assert t[..6] == e;
      assert t[..5][1] == e[1] && t[..4][1] == e[1];
    }
  }

  /** No markup-significant character survives escaping. */
  lemma {:induction false} EscapedHasNoMarkup(s: string)
    ensures forall c | c in Escape(s) :: c !in "<>\"'"
  {
    EscapeIsPerCharacter(s);
    EscapeEachHasNoMarkup(s);
  }

  lemma {:induction false} EscapeEachHasNoMarkup(s: string)
    ensures forall c | c in EscapeEach(s) :: c !in "<>\"'"
  {
    if s != [] {
      EscapeEachHasNoMarkup(s[1..]);
    }
  }
}
