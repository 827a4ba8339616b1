/**
 * The chat page's `escapeHTML` (JavaScript): five global replacements,
 * `&` first, so that the entities the later ones insert are not escaped
 * again.
 */
module HtmlEscape {
  import opened Strings

  /** The characters the page must not show raw inside markup. */
  predicate IsSpecial(c: char)
  {
    c == '&' || c == '<' || c == '>' || c == '"' || c == '\''
  }

  /** The markup-significant characters `escapeHTML` removes from the text. */
  predicate IsMarkupChar(c: char)
  {
    c == '<' || c == '>' || c == '"' || c == '\''
  }

  /** `escapeHTML(str)`: the replacements in the order the page applies them. */
  function EscapeHtml(s: string): string
  {
    var amp := ReplaceAll(s, "&", "&amp;");
    var lt := ReplaceAll(amp, "<", "&lt;");
    var gt := ReplaceAll(lt, ">", "&gt;");
    var quot := ReplaceAll(gt, "\"", "&quot;");
    ReplaceAll(quot, "'", "&#039;")
  }

  /** The entity one character becomes. */
  function EntityOf(c: char): string
  {
    if c == '&' then "&amp;"
    else if c == '<' then "&lt;"
    else if c == '>' then "&gt;"
    else if c == '"' then "&quot;"
    else if c == '\'' then "&#039;"
    else [c]
  }

  /** The text with every character replaced by its entity, independently of the others. */
  function Escaped(s: string): string
    decreases |s|
  {
    if |s| == 0 then [] else EntityOf(s[0]) + Escaped(s[1..])
  }

  /** Reads the five entities back, left to right; any other character stands for itself. */
  function Unescape(t: string): string
    decreases |t|
  {
    if |t| == 0 then []
    else if IsPrefix("&amp;", t) then "&" + Unescape(t[5..])
    else if IsPrefix("&lt;", t) then "<" + Unescape(t[4..])
    else if IsPrefix("&gt;", t) then ">" + Unescape(t[4..])
    else if IsPrefix("&quot;", t) then "\"" + Unescape(t[6..])
    else if IsPrefix("&#039;", t) then "'" + Unescape(t[6..])
    else [t[0]] + Unescape(t[1..])
  }

  /** A one-character replacement works on the two halves of a text separately. */
  lemma {:induction false} ReplaceCharConcat(a: string, b: string, c: char, rep: string)
    ensures ReplaceAll(a + b, [c], rep) == ReplaceAll(a, [c], rep) + ReplaceAll(b, [c], rep)
    decreases |a|
  {
    if |a| > 0 {
      ReplaceCharConcat(a[1..], b, c, rep);
      assert (a + b)[1..] == a[1..] + b;
      assert IsPrefix([c], a + b) <==> a[0] == c;
      assert IsPrefix([c], a) <==> a[0] == c;
    } else {
      assert a + b == b;
    }
  }

  /** A one-character replacement on a one-character text. */
  lemma ReplaceOne(x: char, c: char, rep: string)
    ensures ReplaceAll([x], [c], rep) == if x == c then rep else [x]
  {
    assert IsPrefix([c], [x]) <==> x == c;
    assert [x][1..] == [];
  }

  /** A one-character replacement leaves a text without that character as it is. */
  lemma {:induction false} ReplaceAbsent(s: string, c: char, rep: string)
    requires c !in s
    ensures ReplaceAll(s, [c], rep) == s
    decreases |s|
  {
    if |s| > 0 {
      assert s[0] != c && !IsPrefix([c], s);
      ReplaceAbsent(s[1..], c, rep);
      assert [s[0]] + s[1..] == s;
    }
  }

  /** The chain on one character gives its entity. */
  lemma EscapeOneChar(c: char)
    ensures EscapeHtml([c]) == EntityOf(c)
  {
    var amp := ReplaceAll([c], "&", "&amp;");
    ReplaceOne(c, '&', "&amp;");
    if c == '&' {
      ReplaceAbsent(amp, '<', "&lt;");
      ReplaceAbsent(amp, '>', "&gt;");
      ReplaceAbsent(amp, '"', "&quot;");
      ReplaceAbsent(amp, '\'', "&#039;");
    } else {
      var lt := ReplaceAll(amp, "<", "&lt;");
      ReplaceOne(c, '<', "&lt;");
      if c == '<' {
        ReplaceAbsent(lt, '>', "&gt;");
        ReplaceAbsent(lt, '"', "&quot;");
        ReplaceAbsent(lt, '\'', "&#039;");
      } else {
        var gt := ReplaceAll(lt, ">", "&gt;");
        ReplaceOne(c, '>', "&gt;");
        if c == '>' {
          ReplaceAbsent(gt, '"', "&quot;");
          ReplaceAbsent(gt, '\'', "&#039;");
        } else {
          var quot := ReplaceAll(gt, "\"", "&quot;");
          ReplaceOne(c, '"', "&quot;");
          if c == '"' {
            ReplaceAbsent(quot, '\'', "&#039;");
          } else {
            ReplaceOne(c, '\'', "&#039;");
          }
        }
      }
    }
  }

  /** The chain works on the two halves of a text separately. */
  lemma EscapeConcat(a: string, b: string)
    ensures EscapeHtml(a + b) == EscapeHtml(a) + EscapeHtml(b)
  {
    var a1, b1 := ReplaceAll(a, "&", "&amp;"), ReplaceAll(b, "&", "&amp;");
    ReplaceCharConcat(a, b, '&', "&amp;");
    var a2, b2 := ReplaceAll(a1, "<", "&lt;"), ReplaceAll(b1, "<", "&lt;");
    ReplaceCharConcat(a1, b1, '<', "&lt;");
    var a3, b3 := ReplaceAll(a2, ">", "&gt;"), ReplaceAll(b2, ">", "&gt;");
    ReplaceCharConcat(a2, b2, '>', "&gt;");
    var a4, b4 := ReplaceAll(a3, "\"", "&quot;"), ReplaceAll(b3, "\"", "&quot;");
    ReplaceCharConcat(a3, b3, '"', "&quot;");
    ReplaceCharConcat(a4, b4, '\'', "&#039;");
  }

  /** The chain of replacements escapes each character on its own: no entity is escaped twice. */
  lemma {:induction false} EscapeIsPerCharacter(s: string)
    ensures EscapeHtml(s) == Escaped(s)
    decreases |s|
  {
    if |s| > 0 {
      assert s == [s[0]] + s[1..];
      EscapeConcat([s[0]], s[1..]);
      EscapeOneChar(s[0]);
      EscapeIsPerCharacter(s[1..]);
    } else {
      assert EscapeHtml(s) == [];
    }
  }

  lemma {:induction false} EscapedHasNoMarkup(s: string)
    ensures forall i :: 0 <= i < |Escaped(s)| ==> !IsMarkupChar(Escaped(s)[i])
    decreases |s|
  {
    if |s| > 0 {
      EscapedHasNoMarkup(s[1..]);
      var e, r := EntityOf(s[0]), Escaped(s[1..]);
      forall i | 0 <= i < |e + r| ensures !IsMarkupChar((e + r)[i]) {
        if i >= |e| { assert (e + r)[i] == r[i - |e|]; }
      }
    }
  }

  /** `t` does not start with `p`: they differ at index `k`. */
  lemma DiffersAt(p: string, t: string, k: nat)
    requires k < |p| && k < |t| && p[k] != t[k]
    ensures !IsPrefix(p, t)
  {
    if |p| <= |t| { assert t[..|p|][k] == t[k]; }
  }

  lemma StartsWith(p: string, r: string)
    ensures IsPrefix(p, p + r) && (p + r)[|p|..] == r
  {
    assert (p + r)[..|p|] == p;
  }

  /** Reading back one entity gives its character. */
  lemma UnescapeEntity(c: char, r: string)
    ensures Unescape(EntityOf(c) + r) == [c] + Unescape(r)
  {
    var t := EntityOf(c) + r;
    StartsWith(EntityOf(c), r);
    if c == '&' {
    } else if c == '<' {
      DiffersAt("&amp;", t, 1);
    } else if c == '>' {
      DiffersAt("&amp;", t, 1);
      DiffersAt("&lt;", t, 1);
    } else if c == '"' {
      DiffersAt("&amp;", t, 1);
      DiffersAt("&lt;", t, 1);
      DiffersAt("&gt;", t, 1);
    } else if c == '\'' {
      DiffersAt("&amp;", t, 1);
      DiffersAt("&lt;", t, 1);
      DiffersAt("&gt;", t, 1);
      DiffersAt("&quot;", t, 1);
    } else {
      DiffersAt("&amp;", t, 0);
      DiffersAt("&lt;", t, 0);
      DiffersAt("&gt;", t, 0);
      DiffersAt("&quot;", t, 0);
      DiffersAt("&#039;", t, 0);
    }
  }

  lemma {:induction false} UnescapeEscaped(s: string)
    ensures Unescape(Escaped(s)) == s
    decreases |s|
  {
    if |s| > 0 {
      UnescapeEscaped(s[1..]);
      UnescapeEntity(s[0], Escaped(s[1..]));
      assert [s[0]] + s[1..] == s;
    }
  }

  lemma {:induction false} EscapedPlain(s: string)
    requires forall i :: 0 <= i < |s| ==> !IsSpecial(s[i])
    ensures Escaped(s) == s
    decreases |s|
  {
    if |s| > 0 {
      EscapedPlain(s[1..]);
      assert [s[0]] + s[1..] == s;
    }
  }

  /**
   * `escapeHTML` leaves no `<`, `>`, `"` or `'`; because `&` is replaced
   * first, reading the entities back gives the original text, so nothing is
   * escaped twice; and a text with none of the five characters is unchanged.
   */
  lemma EscapeHtmlSpec(s: string)
    ensures forall i :: 0 <= i < |EscapeHtml(s)| ==> !IsMarkupChar(EscapeHtml(s)[i])
    ensures Unescape(EscapeHtml(s)) == s
    ensures (forall i :: 0 <= i < |s| ==> !IsSpecial(s[i])) ==> EscapeHtml(s) == s
  {
    EscapeIsPerCharacter(s);
    EscapedHasNoMarkup(s);
    UnescapeEscaped(s);
    if forall i :: 0 <= i < |s| ==> !IsSpecial(s[i]) {
      EscapedPlain(s);
    }
  }
}
