/** The template composer: the preprocessing of the template text, then
    either fixed mode (every `{{NAME}}` placeholder replaced from the
    template variables) or dynamic mode (heading placeholders filled, and
    the body of the template replaced by the sections in the order the
    data asks for). */
module TemplateComposer {
  import opened Strings
  import opened SectionValues
  import opened StructureRenderer
  import opened SectionBuilders

  // ---- preprocessing

  const GlyphLine: string := @"\input{glyphtounicode}"
  const GlyphComment: string := "% " + GlyphLine + " % Commented out - file not available"
  const ProjectsHeaderGap: string := "%-----------PROJECTS-----------\n" + @"\section{Projects}" + "\n    " + @"\vspace{-5pt}"
  const ProjectsHeader: string := "%-----------PROJECTS-----------\n" + @"\section{Projects}"
  const Vspace15: string := @"\vspace{-15pt}"
  const Vspace16: string := @"\vspace{-16pt}"
  const Raggedright: string := @"\raggedright"
  const Raggedbottom: string := @"\raggedbottom"
  const SplitTabular: string :=
    @"\begin{tabular*}{1.0\textwidth}[t]{l@{\extracolsep{\fill}}r}" + "\n      "
    + @"\textbf{#1} & \textbf{\small #2} \\" + "\n      "
    + @"\textit{\small#3} & \textit{\small #4} \\" + "\n    " + @"\end{tabular*}"
  const JoinedTabular: string :=
    @"\begin{tabular*}{1.0\textwidth}[t]{l@{\extracolsep{\fill}}r}\textbf{#1} & \textbf{\small #2} \\\textit{\small#3} & \textit{\small #4} \\ \end{tabular*}"
  const SplitSubTabular: string :=
    @"\begin{tabular*}{1.001\textwidth}{l@{\extracolsep{\fill}}r}" + "\n      "
    + @"\small#1 & \textbf{\small #2}\\" + "\n    " + @"\end{tabular*}"
  const JoinedSubTabular: string :=
    @"\begin{tabular*}{1.001\textwidth}{l@{\extracolsep{\fill}}r}\small#1 & \textbf{\small #2}\\ \end{tabular*}"
  const Multicol: string := @"\usepackage{multicol}"
  const MulticolComment: string := @"% \usepackage{multicol} % Disabled for ATS compatibility"
  const MulticolSep: string := @"\setlength{\multicolsep}{-3.0pt}"
  const ColumnSep: string := @"\setlength{\columnsep}{-1pt}"

  /** Comment out the `glyphtounicode` input. */
  function CommentGlyph(t: string): string
  {
    ReplaceAll(t, GlyphLine, GlyphComment)
  }

  /** Standardise `-15pt` spacing to `-16pt`. */
  function StandardizeVspace(t: string): string
  {
    ReplaceAll(t, Vspace15, Vspace16)
  }

  /** Add `\raggedright` after `\raggedbottom`, unless it is already there. */
  function EnsureRaggedright(t: string): string
  {
    if !Contains(t, Raggedright) then ReplaceAll(t, Raggedbottom, Raggedbottom + "\n" + Raggedright) else t
  }

  /** `_preprocess_template`: the fixed chain of literal replacements. */
  function Preprocess(t: string): string
  {
    var t1 := CommentGlyph(t);
    var t2 := ReplaceAll(t1, ProjectsHeaderGap, ProjectsHeader);
    var t3 := StandardizeVspace(t2);
    var t4 := EnsureRaggedright(t3);
    var t5 := ReplaceAll(t4, SplitTabular, JoinedTabular);
    var t6 := ReplaceAll(t5, SplitSubTabular, JoinedSubTabular);
    var t7 := ReplaceAll(t6, Multicol, MulticolComment);
    var t8 := ReplaceAll(t7, MulticolSep, "");
    ReplaceAll(t8, ColumnSep, "")
  }

  /** After the spacing step no `\vspace{-15pt}` is left: its replacement
      starts like it but differs inside, so no new occurrence can form. */
  lemma StandardizeRemoves(t: string)
    ensures !Contains(StandardizeVspace(t), Vspace15)
  {
    assert Vspace15[1..] == @"vspace{-15pt}";
    assert Vspace16[1..] == @"vspace{-16pt}";
    assert Vspace16[..|Vspace15|] != Vspace15 by {
      assert Vspace16[..|Vspace15|][10] != Vspace15[10];
    }
    ReplaceAnchoredRemoves(t, Vspace15, Vspace16);
  }

  /** `\raggedright` is added only when absent: a template that has it is
      left alone, and one that has `\raggedbottom` ends up with it. */
  lemma RaggedrightOnce(t: string)
    ensures Contains(t, Raggedright) ==> EnsureRaggedright(t) == t
    ensures Contains(t, Raggedright) || Contains(t, Raggedbottom) ==> Contains(EnsureRaggedright(t), Raggedright)
  {
    if !Contains(t, Raggedright) && Contains(t, Raggedbottom) {
      var r := Raggedbottom + "\n" + Raggedright;
      assert OccursAt(r, Raggedright, |Raggedbottom| + 1) by {
        assert r[|Raggedbottom| + 1..|Raggedbottom| + 1 + |Raggedright|] == Raggedright;
      }
      ReplaceShowsReplacement(t, Raggedbottom, r, Raggedright);
    }
  }

  /** The glyph step is not idempotent: its replacement contains the text
      it replaces, so applying it again lengthens the template. */
  lemma GlyphNotIdempotent(t: string)
    requires Contains(t, GlyphLine)
    ensures CommentGlyph(CommentGlyph(t)) != CommentGlyph(t)
  {
    assert OccursAt(GlyphComment, GlyphLine, 2) by {
      assert GlyphComment[2..2 + |GlyphLine|] == GlyphLine;
    }
    ReplaceShowsReplacement(t, GlyphLine, GlyphComment, GlyphLine);
    ReplaceLength(CommentGlyph(t), GlyphLine, GlyphComment);
  }

  // ---- fixed mode

  /** The token `{{NAME}}`. */
  function Placeholder(name: string): (p: string)
    ensures |p| == |name| + 4 && p[..2] == "{{"
  {
    "{{" + name + "}}"
  }

  /** Fixed mode: each variable's placeholder replaced by `str` of its
      value, one variable after the other in insertion order. */
  function FixedMode(t: string, vars: seq<(string, Value)>): string
  {
    if vars == [] then t
    else
      var last := vars[|vars| - 1];
      ReplaceAll(FixedMode(t, vars[..|vars| - 1]), Placeholder(last.0), Str(last.1))
  }

  /** A template holding no `{{` has no placeholder, so fixed mode returns
      it unchanged whatever the variables are. */
  lemma {:induction false} FixedModeWithoutPlaceholders(t: string, vars: seq<(string, Value)>)
    requires !Contains(t, "{{")
    ensures FixedMode(t, vars) == t
  {
    if vars != [] {
      var last := vars[|vars| - 1];
      FixedModeWithoutPlaceholders(t, vars[..|vars| - 1]);
      assert !Contains(t, Placeholder(last.0)) by {
        forall i | OccursAt(t, Placeholder(last.0), i) ensures OccursAt(t, "{{", i) {
          assert t[i..i + 2] == t[i..i + |Placeholder(last.0)|][..2];
        }
      }
      ReplaceAbsent(t, Placeholder(last.0), Str(last.1));
    }
  }

  // ---- dynamic mode

  /** The first line of the span of the template that dynamic mode replaces. */
  const Marker: string := "%-----------EDUCATION-----------"
  /** The line the replaced span runs up to, not included. */
  const EndDocument: string := @"\end{document}"

  /** The first occurrence of `p` at or after index `k`. */
  function FindFrom(s: string, p: string, k: nat): (r: Option<nat>)
    requires |p| > 0
    ensures r.Some? ==> k <= r.value && OccursAt(s, p, r.value)
                        && forall j :: k <= j < r.value ==> !OccursAt(s, p, j)
    ensures r.None? ==> forall j :: k <= j ==> !OccursAt(s, p, j)
    decreases |s| - k
  {
    if k + |p| > |s| then None
    else if s[k..k + |p|] == p then Some(k)
    else FindFrom(s, p, k + 1)
  }

  /** The first occurrence at or after `k` is what `FindFrom` finds. */
  lemma FindFromFirst(s: string, p: string, k: nat, j: nat)
    requires |p| > 0 && k <= j && OccursAt(s, p, j)
    requires forall i :: k <= i < j ==> !OccursAt(s, p, i)
    ensures FindFrom(s, p, k) == Some(j)
  {
    var f := FindFrom(s, p, k);
    if f.Some? {
      assert !(f.value < j);
      assert !(j < f.value);
    }
  }

  /** The regular-expression substitution of dynamic mode, for a start
      text `m` and an end text `e`: every span that starts at `m` and runs,
      lazily, up to the next `e` is replaced by `rep`, and the search
      resumes at that `e`. A start with no end after it ends the search. */
  function Splice(s: string, m: string, e: string, rep: string): string
    requires |m| > 0 && |e| > 0
    decreases |s|
  {
    if |s| < |m| then s
    else if s[..|m|] == m then
      match FindFrom(s, e, |m|)
      case None => s
      case Some(j) => rep + Splice(s[j..], m, e, rep)
    else [s[0]] + Splice(s[1..], m, e, rep)
  }

  /** Without the start text the template is left as it is. */
  lemma {:induction false} SpliceWithoutMarker(s: string, m: string, e: string, rep: string)
    requires |m| > 0 && |e| > 0 && !Contains(s, m)
    ensures Splice(s, m, e, rep) == s
  {
    if |s| >= |m| {
      assert !OccursAt(s, m, 0);
      forall j: nat ensures !OccursAt(s[1..], m, j) {
        OccursInTail(s, m, j);
      }
      SpliceWithoutMarker(s[1..], m, e, rep);
    }
  }

  lemma SpliceSkip(s: string, m: string, e: string, rep: string)
    requires |m| > 0 && |e| > 0 && |s| >= |m| && !OccursAt(s, m, 0)
    ensures Splice(s, m, e, rep) == [s[0]] + Splice(s[1..], m, e, rep)
  {
    assert s[0..|m|] == s[..|m|];
  }

  lemma SpliceAtMarker(s: string, m: string, e: string, rep: string, j: nat)
    requires |m| > 0 && |e| > 0 && OccursAt(s, m, 0)
    requires |m| <= j && OccursAt(s, e, j)
    requires forall k :: |m| <= k < j ==> !OccursAt(s, e, k)
    requires !Contains(s[j..], m)
    ensures Splice(s, m, e, rep) == rep + s[j..]
  {
    assert s[..|m|] == s[0..|m|];
    FindFromFirst(s, e, |m|, j);
    SpliceWithoutMarker(s[j..], m, e, rep);
  }

  /** The same for an occurrence that is the first one in a range. */
  lemma RangeShift(s: string, p: string, lo: nat, j: nat)
    requires 0 < lo <= j && OccursAt(s, p, j) && forall k :: lo <= k < j ==> !OccursAt(s, p, k)
    ensures OccursAt(s[1..], p, j - 1) && forall k :: lo - 1 <= k < j - 1 ==> !OccursAt(s[1..], p, k)
  {
    OccursInTail(s, p, j - 1);
    forall k | lo - 1 <= k < j - 1 ensures !OccursAt(s[1..], p, k) {
      OccursInTail(s, p, k);
    }
  }

  /** With the first start at `i`, the first end after it at `j` and no
      start from `j` on, exactly the span `s[i..j]` is replaced. */
  lemma {:induction false} SpliceSpan(s: string, m: string, e: string, rep: string, i: nat, j: nat)
    requires |m| > 0 && |e| > 0
    requires OccursAt(s, m, i) && forall k :: 0 <= k < i ==> !OccursAt(s, m, k)
    requires i + |m| <= j && OccursAt(s, e, j)
    requires forall k :: i + |m| <= k < j ==> !OccursAt(s, e, k)
    requires !Contains(s[j..], m)
    ensures Splice(s, m, e, rep) == s[..i] + rep + s[j..]
  {
    if i == 0 {
      SpliceAtMarker(s, m, e, rep, j);
    } else {
      FirstShift(s, m, i);
      RangeShift(s, e, i + |m|, j);
      assert s[1..][j - 1..] == s[j..];
      SpliceSpan(s[1..], m, e, rep, i - 1, j - 1);
      SpliceSpanStep(s, m, e, rep, i, j);
    }
  }

  /** One step of `SpliceSpan`: what holds of the tail holds of `s`. */
  lemma SpliceSpanStep(s: string, m: string, e: string, rep: string, i: nat, j: nat)
    requires |m| > 0 && |e| > 0 && 0 < i <= j <= |s| && i + |m| <= |s| && !OccursAt(s, m, 0)
    requires Splice(s[1..], m, e, rep) == s[1..][..i - 1] + rep + s[j..]
    ensures Splice(s, m, e, rep) == s[..i] + rep + s[j..]
  {
    SpliceSkip(s, m, e, rep);
    var head := s[1..][..i - 1];
    assert [s[0]] + head == s[..i];
    AppendAssoc([s[0]], head + rep, s[j..]);
    AppendAssoc([s[0]], head, rep);
  }

  /** The substitution dynamic mode applies to the template. */
  function SpliceBody(s: string, rep: string): string
  {
    Splice(s, Marker, EndDocument, rep)
  }

  /** The order used when the data names none. */
  const DefaultOrder: Value := List([Text("education"), Text("experience"), Text("projects"),
                                     Text("skills"), Text("certifications"), Text("leadership")])

  /** `template_vars.get(name, "")`. */
  function VarOr(vars: seq<(string, Value)>, name: string): Value
  {
    match Lookup(vars, name)
    case Some(v) => v
    case None => Text("")
  }

  /** The heading placeholders of dynamic mode, filled in the given order. */
  function FillHeading(t: string, vars: seq<(string, Value)>, names: seq<string>): string
  {
    if names == [] then t
    else
      var last := names[|names| - 1];
      ReplaceAll(FillHeading(t, vars, names[..|names| - 1]), Placeholder(last), Str(VarOr(vars, last)))
  }

  /** What one entry of the section order contributes: nothing for the
      reserved names, for names the data lacks or holds an empty value
      under, and otherwise the rendered section and a newline. */
  function SectionBlock(name: Value, data: Value): (r: string)
    ensures r == "" <==>
      !name.Text? || name.s == "heading" || name.s == "section_order"
      || !HasKey(data, name.s) || !Truthy(GetOr(data, name.s, Text("")))
    ensures r != "" ==> r == SectionLatex(name.s, GetOr(data, name.s, Text(""))) + "\n"
  {
    if !name.Text? || name.s == "heading" || name.s == "section_order" || !HasKey(data, name.s) then ""
    else
      var v := GetOr(data, name.s, Text(""));
      if !Truthy(v) then ""
      else
        var latex := SectionLatex(name.s, v);
        if latex != "" then latex + "\n" else ""
  }

  /** The blocks of the ordered sections, in order. */
  function OrderedSections(order: seq<Value>, data: Value): string
  {
    if order == [] then ""
    else OrderedSections(order[..|order| - 1], data) + SectionBlock(order[|order| - 1], data)
  }

  /** `_render_with_custom_order`. */
  function CustomOrder(t: string, data: Value): string
  {
    var vars := TemplateVars(data);
    var order := Iter(GetOr(data, "section_order", DefaultOrder));
    SpliceBody(FillHeading(t, vars, HeadingNames), OrderedSections(order, data) + "\n")
  }

  /** `render_template`: dynamic mode exactly when the data has the key
      `section_order`, whatever its value. */
  function RenderTemplateSpec(t: string, data: Value): string
  {
    var p := Preprocess(t);
    if HasKey(data, "section_order") then CustomOrder(p, data) else FixedMode(p, TemplateVars(data))
  }

  // ---- properties of dynamic mode

  /** Unfolding the ordered sections of `a + b` at the last name of `b`. */
  lemma OrderedSectionsUnfold(a: seq<Value>, b: seq<Value>, data: Value)
    requires b != []
    ensures OrderedSections(a + b, data)
         == OrderedSections(a + b[..|b| - 1], data) + SectionBlock(b[|b| - 1], data)
  {
    var ab := a + b;
    assert ab[..|ab| - 1] == a + b[..|b| - 1];
    assert ab[|ab| - 1] == b[|b| - 1];
  }

  /** The ordered sections of two orders are those of the first followed by
      those of the second: blocks appear in the order the names do. */
  lemma {:induction false} OrderedSectionsAppend(a: seq<Value>, b: seq<Value>, data: Value)
    ensures OrderedSections(a + b, data) == OrderedSections(a, data) + OrderedSections(b, data)
    decreases |b|
  {
    if b == [] {
      assert a + b == a;
    } else {
      var init := b[..|b| - 1];
      var last := SectionBlock(b[|b| - 1], data);
      OrderedSectionsAppend(a, init, data);
      OrderedSectionsUnfold(a, b, data);
      assert OrderedSections(b, data) == OrderedSections(init, data) + last;
      AppendAssoc(OrderedSections(a, data), OrderedSections(init, data), last);
    }
  }

  /** A one-name order contributes exactly that name's block. */
  lemma OrderedSectionsSingle(name: Value, data: Value)
    ensures OrderedSections([name], data) == SectionBlock(name, data)
  {
    assert [name][..0] == [];
  }

  /** An empty `section_order` still selects dynamic mode, and then the
      whole span from the education marker to `\end{document}` is replaced
      by a single newline. */
  lemma EmptyOrderClearsBody(t: string, data: Value)
    requires HasKey(data, "section_order") && GetOr(data, "section_order", DefaultOrder) == List([])
    ensures CustomOrder(t, data) == SpliceBody(FillHeading(t, TemplateVars(data), HeadingNames), "\n")
  {
    assert Iter(GetOr(data, "section_order", DefaultOrder)) == [];
    assert OrderedSections([], data) + "\n" == "\n";
  }

  /** On a template with one education marker followed by
      `\end{document}`, dynamic mode keeps the filled text before the
      marker and from `\end{document}` on, and puts the ordered sections
      and a newline in between. */
  lemma CustomOrderSpan(t: string, data: Value, filled: string, i: nat, j: nat)
    requires filled == FillHeading(t, TemplateVars(data), HeadingNames)
    requires OccursAt(filled, Marker, i) && forall k :: 0 <= k < i ==> !OccursAt(filled, Marker, k)
    requires i + |Marker| <= j && OccursAt(filled, EndDocument, j)
    requires forall k :: i + |Marker| <= k < j ==> !OccursAt(filled, EndDocument, k)
    requires !Contains(filled[j..], Marker)
    ensures CustomOrder(t, data) ==
      filled[..i] + (OrderedSections(Iter(GetOr(data, "section_order", DefaultOrder)), data) + "\n") + filled[j..]
  {
    var body := OrderedSections(Iter(GetOr(data, "section_order", DefaultOrder)), data) + "\n";
    assert CustomOrder(t, data) == SpliceBody(filled, body);
    SpliceSpan(filled, Marker, EndDocument, body, i, j);
  }

  // ---- the composer as loops

  /** The fixed-mode loop over the template variables. */
  method ReplaceVariables(t: string, vars: seq<(string, Value)>) returns (r: string)
    ensures r == FixedMode(t, vars)
  {
    r := t;
    var i := 0;
    while i < |vars|
      invariant 0 <= i <= |vars|
      invariant r == FixedMode(t, vars[..i])
    {
      assert vars[..i + 1][..i] == vars[..i];
      var (name, value) := vars[i];
      r := ReplaceAll(r, Placeholder(name), Str(value));
      i := i + 1;
    }
    assert vars[..i] == vars;
  }

  /** One pass of the section-order loop: the skips, then the section. */
  method RenderBlock(name: Value, data: Value) returns (block: string)
    ensures block == SectionBlock(name, data)
  {
    block := "";
    if name.Text? && name.s != "heading" && name.s != "section_order" && HasKey(data, name.s) {
      var v := GetOr(data, name.s, Text(""));
      if Truthy(v) {
        var latex := RenderSection(name.s, v);
        if latex != "" {
          block := latex + "\n";
        }
      }
    }
  }

  lemma OrderedSectionsSnoc(order: seq<Value>, i: nat, data: Value)
    requires i < |order|
    ensures OrderedSections(order[..i + 1], data) == OrderedSections(order[..i], data) + SectionBlock(order[i], data)
  {
    assert order[..i + 1][..i] == order[..i];
  }

  /** The loop over the section order, appending each rendered section. */
  method BuildOrderedSections(order: seq<Value>, data: Value) returns (ordered: string)
    ensures ordered == OrderedSections(order, data)
  {
    ordered := "";
    var i := 0;
    while i < |order|
      invariant 0 <= i <= |order|
      invariant ordered == OrderedSections(order[..i], data)
    {
      OrderedSectionsSnoc(order, i, data);
      var block := RenderBlock(order[i], data);
      ordered := ordered + block;
      i := i + 1;
    }
    assert order[..i] == order;
  }

  lemma FillHeadingSnoc(t: string, vars: seq<(string, Value)>, names: seq<string>, i: nat)
    requires i < |names|
    ensures FillHeading(t, vars, names[..i + 1])
         == ReplaceAll(FillHeading(t, vars, names[..i]), Placeholder(names[i]), Str(VarOr(vars, names[i])))
  {
    assert names[..i + 1][..i] == names[..i];
  }

  /** The loop over the nine heading placeholders. */
  method FillHeadingLoop(t: string, vars: seq<(string, Value)>) returns (r: string)
    ensures r == FillHeading(t, vars, HeadingNames)
  {
    r := t;
    var i := 0;
    while i < |HeadingNames|
      invariant 0 <= i <= |HeadingNames|
      invariant r == FillHeading(t, vars, HeadingNames[..i])
    {
      FillHeadingSnoc(t, vars, HeadingNames, i);
      var name := HeadingNames[i];
      r := ReplaceAll(r, Placeholder(name), Str(VarOr(vars, name)));
      i := i + 1;
    }
    assert HeadingNames[..i] == HeadingNames;
  }

  method RenderWithCustomOrder(t: string, data: Value) returns (r: string)
    ensures r == CustomOrder(t, data)
  {
    var vars := MapJsonToTemplateVars(data);
    var ordered := BuildOrderedSections(Iter(GetOr(data, "section_order", DefaultOrder)), data);
    r := FillHeadingLoop(t, vars);
    r := SpliceBody(r, ordered + "\n");
  }

  method RenderTemplate(t: string, data: Value) returns (r: string)
    ensures r == RenderTemplateSpec(t, data)
  {
    var processed := Preprocess(t);
    if HasKey(data, "section_order") {
      r := RenderWithCustomOrder(processed, data);
    } else {
      var vars := MapJsonToTemplateVars(data);
      r := ReplaceVariables(processed, vars);
    }
  }
}
