/** The text escaper: the fixed chain of replacements that makes user text
    safe to place in a LaTeX document. */
module LatexEscape {
  import opened Strings

  /** The formatting commands whose presence means the text already holds
      intentional markup, so its backslashes are left alone. */
  predicate HasCommand(s: string)
  {
    Contains(s, @"\textbf") || Contains(s, @"\href") || Contains(s, @"\emph") || Contains(s, @"\textit")
  }

  /** The replacements applied after the backslash step, in source order:
      `& % $ # _ { }` each gain a leading backslash, then `~` and `^`. */
  function Specials(s: string): string
  {
    var s1 := ReplaceAll(s, "&", @"\&");
    var s2 := ReplaceAll(s1, "%", @"\%");
    var s3 := ReplaceAll(s2, "$", @"\$");
    var s4 := ReplaceAll(s3, "#", @"\#");
    var s5 := ReplaceAll(s4, "_", @"\_");
    var s6 := ReplaceAll(s5, "{", @"\{");
    var s7 := ReplaceAll(s6, "}", @"\}");
    var s8 := ReplaceAll(s7, "~", @"\textasciitilde{}");
    ReplaceAll(s8, "^", @"\^{}")
  }

  /** The backslash step: every backslash becomes `\textbackslash{}`. */
  function BackslashStep(s: string): string
  {
    ReplaceAll(s, @"\", @"\textbackslash{}")
  }

  /** `_escape_latex`: empty text gives empty text; otherwise backslashes
      are rewritten unless the text holds one of the formatting commands,
      and then the nine other special characters are escaped in order. */
  function Escape(text: string): string
  {
    if text == "" then ""
    else
      var r := if !('\\' in text && HasCommand(text)) then BackslashStep(text) else text;
      Specials(r)
  }

  /** What one character becomes under `Escape`. A backslash becomes
      `\textbackslash\{\}` because the braces of `\textbackslash{}` are
      escaped by the later brace steps; it is kept when `keep` holds. */
  function EscapeChar(c: char, keep: bool): string
  {
    match c
    case '\\' => if keep then @"\" else @"\textbackslash\{\}"
    case '&' => @"\&"
    case '%' => @"\%"
    case '$' => @"\$"
    case '#' => @"\#"
    case '_' => @"\_"
    case '{' => @"\{"
    case '}' => @"\}"
    case '~' => @"\textasciitilde{}"
    case '^' => @"\^{}"
    case _ => [c]
  }

  /** The per-character reading of the escaper. */
  function EscapeMap(s: string, keep: bool): string
  {
    if s == [] then [] else EscapeChar(s[0], keep) + EscapeMap(s[1..], keep)
  }

  /** The ten characters the escaper treats specially. */
  predicate IsSpecial(c: char)
  {
    c in @"\&%$#_{}~^"
  }

  // ---- the replacement chain as a per-character map

  lemma SpecialsConcat(a: string, b: string)
    ensures Specials(a + b) == Specials(a) + Specials(b)
  {
    var a1, b1 := ReplaceAll(a, "&", @"\&"), ReplaceAll(b, "&", @"\&");
    var a2, b2 := ReplaceAll(a1, "%", @"\%"), ReplaceAll(b1, "%", @"\%");
    var a3, b3 := ReplaceAll(a2, "$", @"\$"), ReplaceAll(b2, "$", @"\$");
    var a4, b4 := ReplaceAll(a3, "#", @"\#"), ReplaceAll(b3, "#", @"\#");
    var a5, b5 := ReplaceAll(a4, "_", @"\_"), ReplaceAll(b4, "_", @"\_");
    var a6, b6 := ReplaceAll(a5, "{", @"\{"), ReplaceAll(b5, "{", @"\{");
    var a7, b7 := ReplaceAll(a6, "}", @"\}"), ReplaceAll(b6, "}", @"\}");
    var a8, b8 := ReplaceAll(a7, "~", @"\textasciitilde{}"), ReplaceAll(b7, "~", @"\textasciitilde{}");
    ReplaceCharConcat(a, b, '&', @"\&");
    ReplaceCharConcat(a1, b1, '%', @"\%");
    ReplaceCharConcat(a2, b2, '$', @"\$");
    ReplaceCharConcat(a3, b3, '#', @"\#");
    ReplaceCharConcat(a4, b4, '_', @"\_");
    ReplaceCharConcat(a5, b5, '{', @"\{");
    ReplaceCharConcat(a6, b6, '}', @"\}");
    ReplaceCharConcat(a7, b7, '~', @"\textasciitilde{}");
    ReplaceCharConcat(a8, b8, '^', @"\^{}");
  }

  lemma {:induction false} ReplaceCharAbsent(s: string, c: char, r: string)
    requires c !in s
    ensures ReplaceAll(s, [c], r) == s
  {
    if s != [] {
      assert s[..1] == [s[0]];
      ReplaceCharAbsent(s[1..], c, r);
    }
  }

  /** Text holding none of the nine characters passes `Specials` unchanged. */
  lemma SpecialsAbsent(s: string)
    requires forall c :: c in "&%$#_{}~^" ==> c !in s
    ensures Specials(s) == s
  {
    ReplaceCharAbsent(s, '&', @"\&");
    ReplaceCharAbsent(s, '%', @"\%");
    ReplaceCharAbsent(s, '$', @"\$");
    ReplaceCharAbsent(s, '#', @"\#");
    ReplaceCharAbsent(s, '_', @"\_");
    ReplaceCharAbsent(s, '{', @"\{");
    ReplaceCharAbsent(s, '}', @"\}");
    ReplaceCharAbsent(s, '~', @"\textasciitilde{}");
    ReplaceCharAbsent(s, '^', @"\^{}");
  }

  /** One character through `Specials`: it is rewritten by its own step and
      every other step leaves the text alone. */
  lemma SpecialsOfChar(x: char)
    ensures Specials([x]) == EscapeChar(x, true)
  {
    if x !in "&%$#_{}~^" {
      ReplaceCharSingle(x, '&', @"\&");
      ReplaceCharSingle(x, '%', @"\%");
      ReplaceCharSingle(x, '$', @"\$");
      ReplaceCharSingle(x, '#', @"\#");
      ReplaceCharSingle(x, '_', @"\_");
      ReplaceCharSingle(x, '{', @"\{");
      ReplaceCharSingle(x, '}', @"\}");
      ReplaceCharSingle(x, '~', @"\textasciitilde{}");
      ReplaceCharSingle(x, '^', @"\^{}");
    }
    else if x == '&' { SpecialsOfAmp(); }
    else if x == '%' { SpecialsOfPercent(); }
    else if x == '$' { SpecialsOfDollar(); }
    else if x == '#' { SpecialsOfHash(); }
    else if x == '_' { SpecialsOfUnderscore(); }
    else if x == '{' { SpecialsOfLeftBrace(); }
    else if x == '}' { SpecialsOfRightBrace(); }
    else if x == '~' { SpecialsOfTilde(); }
    else if x == '^' { SpecialsOfCaret(); }
  }

  lemma SpecialsOfAmp()
    ensures Specials("&") == @"\&"
  {
    ReplaceCharSingle('&', '&', @"\&");
    ReplaceCharAbsent(@"\&", '%', @"\%");
    ReplaceCharAbsent(@"\&", '$', @"\$");
    ReplaceCharAbsent(@"\&", '#', @"\#");
    ReplaceCharAbsent(@"\&", '_', @"\_");
    ReplaceCharAbsent(@"\&", '{', @"\{");
    ReplaceCharAbsent(@"\&", '}', @"\}");
    ReplaceCharAbsent(@"\&", '~', @"\textasciitilde{}");
    ReplaceCharAbsent(@"\&", '^', @"\^{}");
  }

  lemma SpecialsOfPercent()
    ensures Specials("%") == @"\%"
  {
    ReplaceCharSingle('%', '&', @"\&");
    ReplaceCharSingle('%', '%', @"\%");
    ReplaceCharAbsent(@"\%", '$', @"\$");
    ReplaceCharAbsent(@"\%", '#', @"\#");
    ReplaceCharAbsent(@"\%", '_', @"\_");
    ReplaceCharAbsent(@"\%", '{', @"\{");
    ReplaceCharAbsent(@"\%", '}', @"\}");
    ReplaceCharAbsent(@"\%", '~', @"\textasciitilde{}");
    ReplaceCharAbsent(@"\%", '^', @"\^{}");
  }

  lemma SpecialsOfDollar()
    ensures Specials("$") == @"\$"
  {
    ReplaceCharSingle('$', '&', @"\&");
    ReplaceCharSingle('$', '%', @"\%");
    ReplaceCharSingle('$', '$', @"\$");
    ReplaceCharAbsent(@"\$", '#', @"\#");
    ReplaceCharAbsent(@"\$", '_', @"\_");
    ReplaceCharAbsent(@"\$", '{', @"\{");
    ReplaceCharAbsent(@"\$", '}', @"\}");
    ReplaceCharAbsent(@"\$", '~', @"\textasciitilde{}");
    ReplaceCharAbsent(@"\$", '^', @"\^{}");
  }

  lemma SpecialsOfHash()
    ensures Specials("#") == @"\#"
  {
    ReplaceCharSingle('#', '&', @"\&");
    ReplaceCharSingle('#', '%', @"\%");
    ReplaceCharSingle('#', '$', @"\$");
    ReplaceCharSingle('#', '#', @"\#");
    ReplaceCharAbsent(@"\#", '_', @"\_");
    ReplaceCharAbsent(@"\#", '{', @"\{");
    ReplaceCharAbsent(@"\#", '}', @"\}");
    ReplaceCharAbsent(@"\#", '~', @"\textasciitilde{}");
    ReplaceCharAbsent(@"\#", '^', @"\^{}");
  }

  lemma SpecialsOfUnderscore()
    ensures Specials("_") == @"\_"
  {
    ReplaceCharSingle('_', '&', @"\&");
    ReplaceCharSingle('_', '%', @"\%");
    ReplaceCharSingle('_', '$', @"\$");
    ReplaceCharSingle('_', '#', @"\#");
    ReplaceCharSingle('_', '_', @"\_");
    ReplaceCharAbsent(@"\_", '{', @"\{");
    ReplaceCharAbsent(@"\_", '}', @"\}");
    ReplaceCharAbsent(@"\_", '~', @"\textasciitilde{}");
    ReplaceCharAbsent(@"\_", '^', @"\^{}");
  }

  lemma SpecialsOfLeftBrace()
    ensures Specials("{") == @"\{"
  {
    ReplaceCharSingle('{', '&', @"\&");
    ReplaceCharSingle('{', '%', @"\%");
    ReplaceCharSingle('{', '$', @"\$");
    ReplaceCharSingle('{', '#', @"\#");
    ReplaceCharSingle('{', '_', @"\_");
    ReplaceCharSingle('{', '{', @"\{");
    ReplaceCharAbsent(@"\{", '}', @"\}");
    ReplaceCharAbsent(@"\{", '~', @"\textasciitilde{}");
    ReplaceCharAbsent(@"\{", '^', @"\^{}");
  }

  lemma SpecialsOfRightBrace()
    ensures Specials("}") == @"\}"
  {
    ReplaceCharSingle('}', '&', @"\&");
    ReplaceCharSingle('}', '%', @"\%");
    ReplaceCharSingle('}', '$', @"\$");
    ReplaceCharSingle('}', '#', @"\#");
    ReplaceCharSingle('}', '_', @"\_");
    ReplaceCharSingle('}', '{', @"\{");
    ReplaceCharSingle('}', '}', @"\}");
    ReplaceCharAbsent(@"\}", '~', @"\textasciitilde{}");
    ReplaceCharAbsent(@"\}", '^', @"\^{}");
  }

  lemma SpecialsOfTilde()
    ensures Specials("~") == @"\textasciitilde{}"
  {
    ReplaceCharSingle('~', '&', @"\&");
    ReplaceCharSingle('~', '%', @"\%");
    ReplaceCharSingle('~', '$', @"\$");
    ReplaceCharSingle('~', '#', @"\#");
    ReplaceCharSingle('~', '_', @"\_");
    ReplaceCharSingle('~', '{', @"\{");
    ReplaceCharSingle('~', '}', @"\}");
    ReplaceCharSingle('~', '~', @"\textasciitilde{}");
    ReplaceCharAbsent(@"\textasciitilde{}", '^', @"\^{}");
  }

  lemma SpecialsOfCaret()
    ensures Specials("^") == @"\^{}"
  {
    ReplaceCharSingle('^', '&', @"\&");
    ReplaceCharSingle('^', '%', @"\%");
    ReplaceCharSingle('^', '$', @"\$");
    ReplaceCharSingle('^', '#', @"\#");
    ReplaceCharSingle('^', '_', @"\_");
    ReplaceCharSingle('^', '{', @"\{");
    ReplaceCharSingle('^', '}', @"\}");
    ReplaceCharSingle('^', '~', @"\textasciitilde{}");
    ReplaceCharSingle('^', '^', @"\^{}");
  }

  lemma SpecialsOfBackslashWord(t: string)
    requires t == @"\textbackslash{}"
    ensures Specials(t) == @"\textbackslash\{\}"
  {
    var w := t[..|t| - 2];
    assert w == @"\textbackslash";
    assert forall c :: c in "&%$#_{}~^" ==> c !in w;
    SpecialsBraces(w);
    assert t == w + "{" + "}";
  }

  lemma SpecialsBraces(w: string)
    requires forall c :: c in "&%$#_{}~^" ==> c !in w
    ensures Specials(w + "{" + "}") == w + @"\{" + @"\}"
  {
    SpecialsAbsent(w);
    SpecialsConcat(w, "{");
    SpecialsOfLeftBrace();
    SpecialsConcat(w + "{", "}");
    SpecialsOfRightBrace();
  }

  lemma EscapeOfChar(x: char, keep: bool)
    ensures Specials(if keep then [x] else BackslashStep([x])) == EscapeChar(x, keep)
  {
    ReplaceCharSingle(x, '\\', @"\textbackslash{}");
    if x == '\\' && !keep {
      SpecialsOfBackslashWord(BackslashStep([x]));
    } else {
      SpecialsOfChar(x);
    }
  }

  lemma {:induction false} EscapeMapChain(s: string, keep: bool)
    ensures Specials(if keep then s else BackslashStep(s)) == EscapeMap(s, keep)
  {
    if s != [] {
      assert s == [s[0]] + s[1..];
      ReplaceCharConcat([s[0]], s[1..], '\\', @"\textbackslash{}");
      var head := if keep then [s[0]] else BackslashStep([s[0]]);
      var tail := if keep then s[1..] else BackslashStep(s[1..]);
      SpecialsConcat(head, tail);
      EscapeOfChar(s[0], keep);
      EscapeMapChain(s[1..], keep);
    } else {
      assert BackslashStep(s) == s;
    }
  }

  // ---- properties of the escaper

  /** The escaper is a per-character map: each backslash is kept verbatim
      exactly when the text holds a formatting command, and otherwise
      becomes `\textbackslash\{\}`; every other special character gets its
      fixed escape and every other character is kept. */
  lemma EscapeIsCharMap(s: string)
    ensures Escape(s) == EscapeMap(s, HasCommand(s))
  {
    var keep := HasCommand(s);
    assert keep ==> '\\' in s by {
      if Contains(s, @"\textbf") { BackslashOf(s, @"\textbf"); }
      if Contains(s, @"\href") { BackslashOf(s, @"\href"); }
      if Contains(s, @"\emph") { BackslashOf(s, @"\emph"); }
      if Contains(s, @"\textit") { BackslashOf(s, @"\textit"); }
    }
    EscapeMapChain(s, keep);
  }

  lemma BackslashOf(s: string, cmd: string)
    requires |cmd| > 0 && cmd[0] == '\\' && Contains(s, cmd)
    ensures '\\' in s
  {
    var i :| OccursAt(s, cmd, i);
    assert s[i] == s[i..i + |cmd|][0];
  }

  /** Empty input escapes to the empty string. */
  lemma EscapeEmpty()
    ensures Escape("") == ""
  {
  }

  /** Text with none of the ten special characters comes back unchanged,
      so escaping it again changes nothing either. */
  lemma EscapeClean(s: string)
    requires forall i :: 0 <= i < |s| ==> !IsSpecial(s[i])
    ensures Escape(s) == s
    ensures Escape(Escape(s)) == Escape(s)
  {
    if s != "" {
      assert '\\' !in s by {
        forall i | 0 <= i < |s| ensures s[i] != '\\' { assert !IsSpecial(s[i]); }
      }
      ReplaceCharAbsent(s, '\\', @"\textbackslash{}");
      forall c | c in "&%$#_{}~^" ensures c !in s {
        forall j | 0 <= j < |s| ensures s[j] != c { assert !IsSpecial(s[j]); }
      }
      SpecialsAbsent(s);
    }
  }

  /** On backslash-free text each of `& % $ # _ { }` gains a leading
      backslash, `~` becomes `\textasciitilde{}` and `^` becomes `\^{}`,
      so escaping distributes over concatenation. */
  lemma EscapeConcat(a: string, b: string)
    requires '\\' !in a && '\\' !in b
    ensures Escape(a + b) == Escape(a) + Escape(b)
  {
    assert '\\' !in a + b;
    if a == "" {
      assert a + b == b;
    } else if b == "" {
      assert a + b == a;
    } else {
      ReplaceCharConcat(a, b, '\\', @"\textbackslash{}");
      SpecialsConcat(BackslashStep(a), BackslashStep(b));
    }
  }
}
