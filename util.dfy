/**
 * html/js/lib/util.js: copying touch lists and escaping text for XML with
 * the five predefined entities of section 4.6 of the XML 1.0
 * recommendation.
 */
module Util {
  import opened Wrappers

  /** A browser `Touch`: its identifier and coordinates. */
  datatype Touch = Touch(identifier: int, screenX: real, screenY: real, clientX: real, clientY: real, pageX: real, pageY: real)

  /** The plain object `cloneTouches` makes of a touch; it has no page coordinates. */
  datatype Clone = Clone(identifier: int, screenX: real, screenY: real, clientX: real, clientY: real)

  /** The copy of one touch. */
  function Copy(t: Touch): (r: Clone)
    ensures r.identifier == t.identifier && r.screenX == t.screenX && r.screenY == t.screenY
    ensures r.clientX == t.clientX && r.clientY == t.clientY
  {
    Clone(t.identifier, t.screenX, t.screenY, t.clientX, t.clientY)
  }

  /** What `cloneTouches` returns; a missing list (`null`, `undefined`) gives `[]`. */
  function Cloned(touches: Option<seq<Touch>>): (r: seq<Clone>)
    ensures touches.None? ==> r == []
    ensures touches.Some? ==> |r| == |touches.value| && forall i :: 0 <= i < |r| ==> r[i] == Copy(touches.value[i])
  {
    if touches.None? then [] else seq(|touches.value|, i requires 0 <= i < |touches.value| => Copy(touches.value[i]))
  }

  /** `TouchList.identifiedTouch(id)`: the first touch with that identifier, if any. */
  function Identified(touches: seq<Touch>, id: int): (r: Option<Touch>)
    ensures r.Some? ==> r.value in touches && r.value.identifier == id
    ensures r.None? ==> forall i :: 0 <= i < |touches| ==> touches[i].identifier != id
  {
    if touches == [] then None
    else if touches[0].identifier == id then Some(touches[0])
    else Identified(touches[1..], id)
  }

  /** `cloneTouches(touches)`: one copy per touch, in order, pushed one at a time. */
  method CloneTouches(touches: Option<seq<Touch>>) returns (r: seq<Clone>)
    ensures r == Cloned(touches)
  {
    if touches.None? {
      return [];
    }
    var ts := touches.value;
    r := [];
    var i := 0;
    while i < |ts|
      invariant 0 <= i <= |ts|
      invariant |r| == i && forall j :: 0 <= j < i ==> r[j] == Copy(ts[j])
    {
      r := r + [Clone(ts[i].identifier, ts[i].screenX, ts[i].screenY, ts[i].clientX, ts[i].clientY)];
      i := i + 1;
    }
  }

  /** `s.replace(/c/g, entity)` */
  function ReplaceAll(s: string, c: char, entity: string): (r: string)
    ensures c !in s ==> r == s
    ensures entity != [] ==> |s| <= |r| && (r == [] <==> s == [])
  {
    if s == [] then []
    else (if s[0] == c then entity else [s[0]]) + ReplaceAll(s[1..], c, entity)
  }

  lemma {:induction false} ReplaceAllAppend(a: string, b: string, c: char, entity: string)
    ensures ReplaceAll(a + b, c, entity) == ReplaceAll(a, c, entity) + ReplaceAll(b, c, entity)
  {
    if a == [] {
      assert a + b == b;
    } else {
      assert (a + b)[0] == a[0] && (a + b)[1..] == a[1..] + b;
      ReplaceAllAppend(a[1..], b, c, entity);
    }
  }

  /** `s.xmlEscape()`: `&` first, then `<`, `>`, `"` and `'`. */
  function XmlEscape(s: string): (r: string)
    ensures |s| <= |r| && (r == [] <==> s == [])
  {
    ReplaceAll(ReplaceAll(ReplaceAll(ReplaceAll(ReplaceAll(s, '&', "&amp;"), '<', "&lt;"), '>', "&gt;"), '"', "&quot;"), '\'', "&apos;")
  }

  /** The entity for one character, or the character itself. */
  function EscapeChar(c: char): string
  {
    match c
    case '&' => "&amp;"
    case '<' => "&lt;"
    case '>' => "&gt;"
    case '"' => "&quot;"
    case '\'' => "&apos;"
    case _ => [c]
  }

  /** Character-by-character escaping. */
  function Escaped(s: string): string
  {
    if s == [] then [] else EscapeChar(s[0]) + Escaped(s[1..])
  }

  lemma XmlEscapeAppend(a: string, b: string)
    ensures XmlEscape(a + b) == XmlEscape(a) + XmlEscape(b)
  {
    var s1a := ReplaceAll(a, '&', "&amp;");
    var s1b := ReplaceAll(b, '&', "&amp;");
    ReplaceAllAppend(a, b, '&', "&amp;");
    var s2a := ReplaceAll(s1a, '<', "&lt;");
    var s2b := ReplaceAll(s1b, '<', "&lt;");
    ReplaceAllAppend(s1a, s1b, '<', "&lt;");
    var s3a := ReplaceAll(s2a, '>', "&gt;");
    var s3b := ReplaceAll(s2b, '>', "&gt;");
    ReplaceAllAppend(s2a, s2b, '>', "&gt;");
    var s4a := ReplaceAll(s3a, '"', "&quot;");
    var s4b := ReplaceAll(s3b, '"', "&quot;");
    ReplaceAllAppend(s3a, s3b, '"', "&quot;");
    ReplaceAllAppend(s4a, s4b, '\'', "&apos;");
  }

  lemma ReplaceOne(c: char, x: char, entity: string)
    ensures ReplaceAll([c], x, entity) == if c == x then entity else [c]
  {
    assert [c][1..] == [];
  }

  /**
   * The later replacements never touch what the first one wrote: the
   * chain escapes each character on its own.
   */
  /** Text without the four later special characters passes the later replacements unchanged. */
  lemma LaterKeep(e: string)
    requires '<' !in e && '>' !in e && '"' !in e && '\'' !in e
    ensures ReplaceAll(ReplaceAll(ReplaceAll(ReplaceAll(e, '<', "&lt;"), '>', "&gt;"), '"', "&quot;"), '\'', "&apos;") == e
  {
  }

  lemma XmlEscapeChar(c: char)
    ensures XmlEscape([c]) == EscapeChar(c)
  {
    var s1 := ReplaceAll([c], '&', "&amp;");
    ReplaceOne(c, '&', "&amp;");
    if c == '&' {
      LaterKeep("&amp;");
    } else {
      var s2 := ReplaceAll(s1, '<', "&lt;");
      ReplaceOne(c, '<', "&lt;");
      if c == '<' {
        assert s2 == "&lt;";
        LaterKeep2("&lt;");
      } else {
        var s3 := ReplaceAll(s2, '>', "&gt;");
        ReplaceOne(c, '>', "&gt;");
        if c == '>' {
          assert s3 == "&gt;";
          LaterKeep3("&gt;");
        } else {
          ReplaceOne(c, '"', "&quot;");
          ReplaceOne(c, '\'', "&apos;");
          if c == '"' {
            LaterKeep4("&quot;");
          }
        }
      }
    }
  }

  lemma LaterKeep2(e: string)
    requires '>' !in e && '"' !in e && '\'' !in e
    ensures ReplaceAll(ReplaceAll(ReplaceAll(e, '>', "&gt;"), '"', "&quot;"), '\'', "&apos;") == e
  {
  }

  lemma LaterKeep3(e: string)
    requires '"' !in e && '\'' !in e
    ensures ReplaceAll(ReplaceAll(e, '"', "&quot;"), '\'', "&apos;") == e
  {
  }

  lemma LaterKeep4(e: string)
    requires '\'' !in e
    ensures ReplaceAll(e, '\'', "&apos;") == e
  {
  }

  /** `xmlEscape` is the character-by-character escape. */
  lemma {:induction false} XmlEscapeEscapes(s: string)
    ensures XmlEscape(s) == Escaped(s)
  {
    if s != [] {
      assert s == [s[0]] + s[1..];
      XmlEscapeAppend([s[0]], s[1..]);
      XmlEscapeChar(s[0]);
      XmlEscapeEscapes(s[1..]);
    }
  }

  /** The escaped text of `s` is `s` with each entity reference expanded back. */
  function Unescape(s: string): string
    decreases |s|
  {
    if s == [] then []
    else if |s| >= 5 && s[..5] == "&amp;" then "&" + Unescape(s[5..])
    else if |s| >= 4 && s[..4] == "&lt;" then "<" + Unescape(s[4..])
    else if |s| >= 4 && s[..4] == "&gt;" then ">" + Unescape(s[4..])
    else if |s| >= 6 && s[..6] == "&quot;" then "\"" + Unescape(s[6..])
    else if |s| >= 6 && s[..6] == "&apos;" then "'" + Unescape(s[6..])
    else [s[0]] + Unescape(s[1..])
  }

  lemma UnescapeAmp(rest: string)
    ensures Unescape("&amp;" + rest) == "&" + Unescape(rest)
  {
    var s := "&amp;" + rest;
    assert s[..5] == "&amp;" && s[5..] == rest;
  }

  lemma UnescapeLt(rest: string)
    ensures Unescape("&lt;" + rest) == "<" + Unescape(rest)
  {
    var s := "&lt;" + rest;
    assert s[1] == 'l' && s[..4] == "&lt;" && s[4..] == rest;
    assert |s| >= 5 ==> s[..5][1] != "&amp;"[1];
  }

  lemma UnescapeGt(rest: string)
    ensures Unescape("&gt;" + rest) == ">" + Unescape(rest)
  {
    var s := "&gt;" + rest;
    assert s[1] == 'g' && s[..4] == "&gt;" && s[4..] == rest;
    assert |s| >= 5 ==> s[..5][1] != "&amp;"[1];
    assert s[..4][1] != "&lt;"[1];
  }

  lemma UnescapeQuot(rest: string)
    ensures Unescape("&quot;" + rest) == "\"" + Unescape(rest)
  {
    var s := "&quot;" + rest;
    assert s[1] == 'q' && s[..6] == "&quot;" && s[6..] == rest;
    assert s[..5][1] != "&amp;"[1];
    assert s[..4][1] != "&lt;"[1] && s[..4][1] != "&gt;"[1];
  }

  lemma UnescapeApos(rest: string)
    ensures Unescape("&apos;" + rest) == "'" + Unescape(rest)
  {
    var s := "&apos;" + rest;
    assert s[1] == 'a' && s[2] == 'p' && s[..6] == "&apos;" && s[6..] == rest;
    assert s[..5][2] != "&amp;"[2];
    assert s[..4][1] != "&lt;"[1] && s[..4][1] != "&gt;"[1];
    assert s[..6][1] != "&quot;"[1];
  }

  lemma UnescapePlain(c: char, rest: string)
    requires c != '&'
    ensures Unescape([c] + rest) == [c] + Unescape(rest)
  {
    var s := [c] + rest;
    assert s[0] == c && s[1..] == rest;
    assert |s| >= 5 ==> s[..5][0] != "&amp;"[0];
    assert |s| >= 4 ==> s[..4][0] != "&lt;"[0] && s[..4][0] != "&gt;"[0];
    assert |s| >= 6 ==> s[..6][0] != "&quot;"[0] && s[..6][0] != "&apos;"[0];
  }

  lemma UnescapeChar(c: char, rest: string)
    ensures Unescape(EscapeChar(c) + rest) == [c] + Unescape(rest)
  {
    match c
    case '&' => UnescapeAmp(rest);
    case '<' => UnescapeLt(rest);
    case '>' => UnescapeGt(rest);
    case '"' => UnescapeQuot(rest);
    case '\'' => UnescapeApos(rest);
    case _ => UnescapePlain(c, rest);
  }

  /** Unescaping gives the text back: nothing is escaped twice and nothing is lost. */
  lemma {:induction false} EscapeRoundTrip(s: string)
    ensures Unescape(XmlEscape(s)) == s
  {
    XmlEscapeEscapes(s);
    EscapedRoundTrip(s);
  }

  lemma {:induction false} EscapedRoundTrip(s: string)
    ensures Unescape(Escaped(s)) == s
  {
    if s != [] {
      UnescapeChar(s[0], Escaped(s[1..]));
      EscapedRoundTrip(s[1..]);
      assert s == [s[0]] + s[1..];
    }
  }

  /** One of the five entity references starts at `i`. */
  predicate EntityAt(s: string, i: nat)
  {
    (i + 5 <= |s| && s[i..i + 5] == "&amp;") ||
    (i + 4 <= |s| && (s[i..i + 4] == "&lt;" || s[i..i + 4] == "&gt;")) ||
    (i + 6 <= |s| && (s[i..i + 6] == "&quot;" || s[i..i + 6] == "&apos;"))
  }

  /** A character markup gives meaning to. */
  predicate Markup(c: char)
  {
    c == '<' || c == '>' || c == '"' || c == '\''
  }

  /** An entity reference stays one when text is put before it. */
  lemma EntityAtShift(e: string, t: string, j: nat)
    requires EntityAt(t, j)
    ensures EntityAt(e + t, |e| + j)
  {
    var r := e + t;
    var i := |e| + j;
    if j + 4 <= |t| {
      assert r[i..i + 4] == t[j..j + 4];
    }
    if j + 5 <= |t| {
      assert r[i..i + 5] == t[j..j + 5];
    }
    if j + 6 <= |t| {
      assert r[i..i + 6] == t[j..j + 6];
    }
  }

  /** The escape of one character holds no markup, and its only `&` starts it as an entity. */
  lemma EscapeCharSafe(c: char, t: string)
    ensures forall i :: 0 <= i < |EscapeChar(c)| ==> !Markup(EscapeChar(c)[i])
    ensures forall i :: 0 <= i < |EscapeChar(c)| && EscapeChar(c)[i] == '&' ==> i == 0
    ensures EscapeChar(c)[0] == '&' ==> EntityAt(EscapeChar(c) + t, 0)
  {
    var r := EscapeChar(c) + t;
    assert r[..|EscapeChar(c)|] == EscapeChar(c);
  }

  /**
   * The escaped text holds no `<`, `>`, `"` or `'`, and every `&` in it
   * starts an entity reference.
   */
  lemma {:induction false} EscapedSafe(s: string)
    ensures forall i :: 0 <= i < |Escaped(s)| ==> !Markup(Escaped(s)[i])
    ensures forall i :: 0 <= i < |Escaped(s)| && Escaped(s)[i] == '&' ==> EntityAt(Escaped(s), i)
  {
    if s != [] {
      EscapedSafe(s[1..]);
      var e := EscapeChar(s[0]);
      var t := Escaped(s[1..]);
      var r := e + t;
      assert Escaped(s) == r;
      EscapeCharSafe(s[0], t);
      forall i | 0 <= i < |r|
        ensures !Markup(r[i])
        ensures r[i] == '&' ==> EntityAt(r, i)
      {
        if i < |e| {
          assert r[i] == e[i];
        } else {
          assert r[i] == t[i - |e|];
          if t[i - |e|] == '&' {
            EntityAtShift(e, t, i - |e|);
          }
        }
      }
    }
  }

  /**
   * `xmlEscape` leaves no `<`, `>`, `"` or `'`, every `&` it leaves starts
   * an entity reference, and text without the five special characters
   * comes back unchanged.
   */
  lemma XmlEscapeSafe(s: string)
    ensures forall i :: 0 <= i < |XmlEscape(s)| ==> !Markup(XmlEscape(s)[i])
    ensures forall i :: 0 <= i < |XmlEscape(s)| && XmlEscape(s)[i] == '&' ==> EntityAt(XmlEscape(s), i)
    ensures (forall i :: 0 <= i < |s| ==> !Markup(s[i]) && s[i] != '&') ==> XmlEscape(s) == s
  {
    XmlEscapeEscapes(s);
    EscapedSafe(s);
    if forall i :: 0 <= i < |s| ==> !Markup(s[i]) && s[i] != '&' {
      assert '&' !in s && '<' !in s && '>' !in s && '"' !in s && '\'' !in s by {
        forall i | 0 <= i < |s|
          ensures s[i] != '&' && !Markup(s[i])
        {
        }
      }
    }
  }
}
