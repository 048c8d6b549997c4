/** The structure renderer: turns one named section value into LaTeX,
    choosing the layout from the shape of the value (never from its name).
    Each layout is given once as a function; the methods below build the
    same text by appending in loops, as the renderer does, and are proved
    to produce exactly what the functions describe. */
module StructureRenderer {
  import opened Strings
  import opened SectionValues
  import opened LatexEscape

  // ---- folds that the renderer's loops compute

  /** `for x in xs: out += f(x)`. */
  function Concat(xs: seq<Value>, f: Value -> string): string
  {
    if xs == [] then "" else Concat(xs[..|xs| - 1], f) + f(xs[|xs| - 1])
  }

  /** `for k, v in obj.items(): out += f((k, v))`. */
  function ConcatFields(fs: seq<(string, Value)>, f: ((string, Value)) -> string): string
  {
    if fs == [] then "" else ConcatFields(fs[..|fs| - 1], f) + f(fs[|fs| - 1])
  }

  /** `[f(x) for x in xs]`. */
  function MapValues(xs: seq<Value>, f: Value -> string): (r: seq<string>)
    ensures |r| == |xs|
    ensures forall i :: 0 <= i < |xs| ==> r[i] == f(xs[i])
  {
    if xs == [] then [] else MapValues(xs[..|xs| - 1], f) + [f(xs[|xs| - 1])]
  }

  lemma MapValuesSnoc(xs: seq<Value>, i: nat, f: Value -> string)
    requires i < |xs|
    ensures MapValues(xs[..i + 1], f) == MapValues(xs[..i], f) + [f(xs[i])]
  {
    assert xs[..i + 1][..i] == xs[..i];
  }

  lemma ConcatSnoc(xs: seq<Value>, i: nat, f: Value -> string)
    requires i < |xs|
    ensures Concat(xs[..i + 1], f) == Concat(xs[..i], f) + f(xs[i])
  {
    assert xs[..i + 1][..i] == xs[..i];
  }

  lemma ConcatFieldsSnoc(fs: seq<(string, Value)>, i: nat, f: ((string, Value)) -> string)
    requires i < |fs|
    ensures ConcatFields(fs[..i + 1], f) == ConcatFields(fs[..i], f) + f(fs[i])
  {
    assert fs[..i + 1][..i] == fs[..i];
  }

  /** The loop `for x in xs: out += f(x)`. */
  method ConcatLoop(xs: seq<Value>, f: Value -> string) returns (out: string)
    ensures out == Concat(xs, f)
  {
    out := "";
    var i := 0;
    while i < |xs|
      invariant 0 <= i <= |xs|
      invariant out == Concat(xs[..i], f)
    {
      ConcatSnoc(xs, i, f);
      out := out + f(xs[i]);
      i := i + 1;
    }
    assert xs[..i] == xs;
  }

  /** The loop `for k, v in obj.items(): out += f((k, v))`. */
  method ConcatFieldsLoop(fs: seq<(string, Value)>, f: ((string, Value)) -> string) returns (out: string)
    ensures out == ConcatFields(fs, f)
  {
    out := "";
    var i := 0;
    while i < |fs|
      invariant 0 <= i <= |fs|
      invariant out == ConcatFields(fs[..i], f)
    {
      ConcatFieldsSnoc(fs, i, f);
      out := out + f(fs[i]);
      i := i + 1;
    }
    assert fs[..i] == fs;
  }

  /** `_escape_latex(v)` on a value: falsy values give the empty string,
      anything else is escaped after `str`. */
  function EscapeValue(v: Value): string
  {
    if !Truthy(v) then "" else Escape(Str(v))
  }

  /** `[_escape_latex(str(x)) for x in xs]`. */
  function EscapeAll(xs: seq<Value>): (r: seq<string>)
    ensures |r| == |xs|
    ensures forall i :: 0 <= i < |xs| ==> r[i] == Escape(Str(xs[i]))
  {
    if xs == [] then [] else [Escape(Str(xs[0]))] + EscapeAll(xs[1..])
  }

  /** `url and url.strip()`. */
  predicate HasUrl(url: Value)
  {
    Truthy(url) && NonBlank(Str(url))
  }

  // ---- layout detection

  datatype Layout = InstitutionLayout | ProjectLayout | CertificationLayout | LeadershipLayout | GenericLayout

  /** The key tests of the four specific layouts. */
  predicate InstitutionKeys(keys: set<string>)
  {
    ("institution" in keys || "company" in keys) && "location" in keys && "date" in keys
  }

  predicate ProjectKeys(keys: set<string>)
  {
    "name" in keys && ("technologies" in keys || "description" in keys)
  }

  predicate CertificationKeys(keys: set<string>)
  {
    "name" in keys && "issuer" in keys
  }

  predicate LeadershipKeys(keys: set<string>)
  {
    ("organization" in keys || "role" in keys) && "date" in keys
  }

  /** The layout chosen from the key set of a list's first record: the
      first of the four key tests that holds, in priority order, or the
      generic layout when none does. */
  function Classify(keys: set<string>): (l: Layout)
    ensures l == InstitutionLayout <==> InstitutionKeys(keys)
    ensures l == ProjectLayout <==> !InstitutionKeys(keys) && ProjectKeys(keys)
    ensures l == CertificationLayout <==>
      !InstitutionKeys(keys) && !ProjectKeys(keys) && CertificationKeys(keys)
    ensures l == LeadershipLayout <==>
      !InstitutionKeys(keys) && !ProjectKeys(keys) && !CertificationKeys(keys) && LeadershipKeys(keys)
    ensures l == GenericLayout <==>
      !InstitutionKeys(keys) && !ProjectKeys(keys) && !CertificationKeys(keys) && !LeadershipKeys(keys)
  {
    if ("institution" in keys || "company" in keys) && "location" in keys && "date" in keys then InstitutionLayout
    else if "name" in keys && ("technologies" in keys || "description" in keys) then ProjectLayout
    else if "name" in keys && "issuer" in keys then CertificationLayout
    else if ("organization" in keys || "role" in keys) && "date" in keys then LeadershipLayout
    else GenericLayout
  }

  // ---- per-entry text of each layout

  /** `_escape_latex(item.get(key, ""))`. */
  function FieldText(item: Value, key: string): string
  {
    EscapeValue(GetOr(item, key, Text("")))
  }

  /** A bullet block at the given indent: `\resumeItemListStart`, the
      bullets, `\resumeItemListEnd`. */
  function ItemBlock(indent: string, bullets: string): (r: string)
    ensures indent + @"\resumeItemListStart" + "\n" <= r
    ensures EndsWith(r, indent + @"\resumeItemListEnd" + "\n")
  {
    indent + @"\resumeItemListStart" + "\n" + bullets + (indent + @"\resumeItemListEnd" + "\n")
  }

  function DetailItem(d: Value): string
  {
    "        " + @"\resumeItem{" + Escape(Str(d)) + "}\n"
  }

  function ProjectItem(d: Value): string
  {
    "            " + @"\resumeItem{" + Escape(Str(d)) + "}\n"
  }

  function LeadershipItem(d: Value): string
  {
    "          " + @"\resumeItem{" + Escape(Str(d)) + "}\n"
  }

  /** The two heading lines of an education or experience entry: the
      institution (or company) and location, then the degree (or position)
      and date. */
  function InstitutionHeading(item: Value): string
  {
    var title1 := EscapeValue(OrElse(Get(item, "institution"), GetOr(item, "company", Text(""))));
    var subtitle1 := EscapeValue(OrElse(Get(item, "degree"), GetOr(item, "position", Text(""))));
    "    " + @"\resumeSubheading" + "\n"
    + "      {" + title1 + "}{" + FieldText(item, "location") + "}\n"
    + "      {" + subtitle1 + "}{" + FieldText(item, "date") + "}\n"
  }

  /** `details or responsibilities or description`: the first truthy of the
      three, else `description`'s value or an empty list. */
  function InstitutionDetails(item: Value): Value
  {
    OrElse(Get(item, "details"), OrElse(Get(item, "responsibilities"), GetOr(item, "description", List([]))))
  }

  /** An education or experience entry: the heading lines, then a bullet
      block exactly when the chosen details are a non-empty list. */
  function InstitutionEntry(item: Value): (r: string)
    ensures InstitutionHeading(item) <= r
    ensures r == InstitutionHeading(item) <==>
      !(Truthy(InstitutionDetails(item)) && InstitutionDetails(item).List?)
  {
    var details := InstitutionDetails(item);
    InstitutionHeading(item)
    + (if Truthy(details) && details.List? then ItemBlock("      ", Concat(details.items, DetailItem)) else "")
  }

  /** The technology list of a project title: its items escaped and
      joined, or empty. */
  function ProjectTech(item: Value): string
  {
    var technologies := GetOr(item, "technologies", List([]));
    if Truthy(technologies) then Join(", ", EscapeAll(Iter(technologies))) else ""
  }

  /** A project title. With a non-blank url the escaped name is linked to
      the url as given and the technology part always follows; without one
      the technology part follows only when there are technologies. */
  function ProjectTitle(item: Value): (r: string)
    ensures var url := GetOr(item, "url", Text(""));
      HasUrl(url) ==> @"\textbf{\href{" + Str(url) + "}{" + FieldText(item, "name") + "}}" <= r
    ensures !HasUrl(GetOr(item, "url", Text(""))) ==> @"\textbf{" + FieldText(item, "name") + "}" <= r
    ensures HasUrl(GetOr(item, "url", Text(""))) || ProjectTech(item) != "" ==>
      EndsWith(r, @" $|$ \emph{" + ProjectTech(item) + "}")
    ensures !HasUrl(GetOr(item, "url", Text(""))) && ProjectTech(item) == "" ==>
      r == @"\textbf{" + FieldText(item, "name") + "}"
  {
    var name := FieldText(item, "name");
    var url := GetOr(item, "url", Text(""));
    var tech := ProjectTech(item);
    if HasUrl(url) then
      @"\textbf{\href{" + Str(url) + "}{" + name + "}}" + (@" $|$ \emph{" + tech + "}")
    else if tech != "" then
      @"\textbf{" + name + "}" + (@" $|$ \emph{" + tech + "}")
    else
      @"\textbf{" + name + "}"
  }

  /** The heading line and the title/date line of a project entry. */
  function ProjectHeading(item: Value): string
  {
    "      " + @"\resumeProjectHeading" + "\n"
    + "          {" + ProjectTitle(item) + "}{" + FieldText(item, "date") + "}\n"
  }

  /** The bullets of a project: one per element of a list description, a
      single one for a string description, none for anything else. */
  function ProjectBullets(description: Value): (r: string)
    ensures r == "" <==> !(Truthy(description) && (description.List? || description.Text?))
  {
    if !Truthy(description) then ""
    else if description.List? then ItemBlock("          ", Concat(description.items, ProjectItem))
    else if description.Text? then ItemBlock("          ", ProjectItem(description))
    else ""
  }

  /** A project entry without the separator that follows it. */
  function ProjectEntry(item: Value): (r: string)
    ensures ProjectHeading(item) <= r
    ensures var d := GetOr(item, "description", List([]));
      r == ProjectHeading(item) <==> !(Truthy(d) && (d.List? || d.Text?))
  {
    ProjectHeading(item) + ProjectBullets(GetOr(item, "description", List([])))
  }

  /** The spacing line placed between two project entries. */
  const ProjectSeparator: string := "      " + @"\vspace{-16pt}" + "\n"

  /** The first `k` entries, each followed by `sep` unless it is the last
      item of the list. */
  function Separated(items: seq<Value>, k: nat, f: Value -> string, sep: string): string
    requires k <= |items|
  {
    if k == 0 then ""
    else Separated(items, k - 1, f, sep) + f(items[k - 1]) + (if k - 1 < |items| - 1 then sep else "")
  }

  /** A certification line: the escaped name, linked when a non-blank url
      is given, then the issuer and the date. */
  function CertificationEntry(item: Value): (r: string)
    ensures var url := GetOr(item, "url", Text(""));
      HasUrl(url) ==> "     " + @"\textbf{\href{" + Str(url) + "}{" + FieldText(item, "name") + "}}" <= r
    ensures !HasUrl(GetOr(item, "url", Text(""))) ==> "     " + @"\textbf{" + FieldText(item, "name") + "}" <= r
    ensures EndsWith(r, " - " + FieldText(item, "issuer") + " (" + FieldText(item, "date") + @") \\" + "\n")
  {
    var name := FieldText(item, "name");
    var rest := " - " + FieldText(item, "issuer") + " (" + FieldText(item, "date") + @") \\" + "\n";
    var url := GetOr(item, "url", Text(""));
    if HasUrl(url) then
      "     " + @"\textbf{\href{" + Str(url) + "}{" + name + "}}" + rest
    else
      "     " + @"\textbf{" + name + "}" + rest
  }

  /** The two heading lines of a leadership entry. */
  function LeadershipHeading(item: Value): string
  {
    "      " + @"\resumeSubheading" + "\n"
    + "        {" + FieldText(item, "organization") + "}{}\n"
    + "        {" + FieldText(item, "role") + "}{" + FieldText(item, "date") + "}\n"
  }

  /** A leadership entry: the heading lines, then a bullet block exactly
      when the description is a non-empty list. */
  function LeadershipEntry(item: Value): (r: string)
    ensures LeadershipHeading(item) <= r
    ensures var d := GetOr(item, "description", List([]));
      r == LeadershipHeading(item) <==> !(Truthy(d) && d.List?)
  {
    var description := GetOr(item, "description", List([]));
    LeadershipHeading(item)
    + (if Truthy(description) && description.List?
       then ItemBlock("        ", Concat(description.items, LeadershipItem)) else "")
  }

  /** In the generic layout, a truthy field other than `name`, appended
      after the bold name. */
  function OtherField(kv: (string, Value)): string
  {
    if kv.0 != "name" && Truthy(kv.1) then " - " + Escape(Str(kv.1)) else ""
  }

  /** `f"{key}: {value}"`. */
  function PairText(kv: (string, Value)): string
  {
    kv.0 + ": " + Str(kv.1)
  }

  /** The `key: value` texts of the truthy fields: each truthy field gives
      one, and nothing else does. */
  function PairTexts(fs: seq<(string, Value)>): (r: seq<string>)
    ensures |r| <= |fs|
    ensures forall i :: 0 <= i < |fs| && Truthy(fs[i].1) ==> PairText(fs[i]) in r
    ensures forall x :: x in r ==> exists i :: 0 <= i < |fs| && Truthy(fs[i].1) && x == PairText(fs[i])
  {
    if fs == [] then []
    else
      var rest := PairTexts(fs[1..]);
      assert forall i :: 0 < i < |fs| ==> fs[i] == fs[1..][i - 1];
      if Truthy(fs[0].1) then [PairText(fs[0])] + rest else rest
  }

  /** A generic entry: the bold escaped name followed by its other fields,
      or, with no name, all truthy fields escaped as one text. */
  function GenericEntry(item: Value): (r: string)
    ensures HasKey(item, "name") ==>
      "  " + @"\item \textbf{" + Escape(Str(GetOr(item, "name", Text("")))) + "}" <= r
    ensures !HasKey(item, "name") ==> "  " + @"\item " <= r
    ensures EndsWith(r, "\n")
  {
    if HasKey(item, "name") then
      "  " + @"\item \textbf{" + Escape(Str(GetOr(item, "name", Text("")))) + "}"
      + ConcatFields(Fields(item), OtherField) + "\n"
    else
      "  " + @"\item " + Escape(Join(", ", PairTexts(Fields(item)))) + "\n"
  }

  function InstitutionList(items: seq<Value>): string
  {
    "  " + @"\resumeSubHeadingListStart" + "\n"
    + Concat(items, InstitutionEntry)
    + "  " + @"\resumeSubHeadingListEnd" + "\n" + @"\vspace{-16pt}" + "\n"
  }

  function ProjectList(items: seq<Value>): string
  {
    "    " + @"\resumeSubHeadingListStart" + "\n"
    + Separated(items, |items|, ProjectEntry, ProjectSeparator)
    + "    " + @"\resumeSubHeadingListEnd" + "\n"
  }

  function CertificationList(items: seq<Value>): string
  {
    " " + @"\begin{itemize}[leftmargin=0.15in, label={}]" + "\n"
    + "    " + @"\small{\item{" + "\n"
    + Concat(items, CertificationEntry)
    + "    }}\n" + " " + @"\end{itemize}" + "\n" + " " + @"\vspace{-16pt}" + "\n"
  }

  function LeadershipList(items: seq<Value>): string
  {
    "    " + @"\resumeSubHeadingListStart" + "\n"
    + Concat(items, LeadershipEntry)
    + "    " + @"\resumeSubHeadingListEnd" + "\n"
  }

  function GenericList(items: seq<Value>): string
  {
    @"\begin{itemize}[leftmargin=0.15in]" + "\n"
    + Concat(items, GenericEntry)
    + @"\end{itemize}" + "\n" + @"\vspace{-8pt}" + "\n"
  }

  /** Every item of a list rendered in one layout. */
  function LayoutList(layout: Layout, items: seq<Value>): string
  {
    match layout
    case InstitutionLayout => InstitutionList(items)
    case ProjectLayout => ProjectList(items)
    case CertificationLayout => CertificationList(items)
    case LeadershipLayout => LeadershipList(items)
    case GenericLayout => GenericList(items)
  }

  /** The whole structured list, in the layout its first item's keys select. */
  function StructuredList(sectionName: string, items: seq<Value>): string
  {
    if items == [] then "" else LayoutList(Classify(Keys(items[0])), items)
  }

  // ---- a whole section

  /** The section title: underscores become spaces, then title case. */
  function SectionTitle(name: string): string
  {
    Title(ReplaceAll(name, "_", " "))
  }

  /** The comment banner and `\section` line every non-empty section starts with. */
  function SectionHeader(name: string): string
  {
    "\n%-----------" + Upper(SectionTitle(name)) + "-----------\n"
    + @"\section{" + SectionTitle(name) + "}\n"
  }

  /** A bullet of a plain list; items that are not strings are skipped. */
  function StringItem(x: Value): string
  {
    if x.Text? then "  " + @"\item " + Escape(x.s) + "\n" else ""
  }

  /** One line of a skills-like section: the category name in bold (not
      escaped) followed by its escaped items. */
  function CategoryLine(c: Value): string
  {
    var items := GetOr(c, "items", List([]));
    "     " + @"\textbf{" + Str(GetOr(c, "name", Text(""))) + "}{: "
    + Join(", ", EscapeAll(Iter(items))) + @"} \\" + "\n"
  }

  /** One bullet of a generic object section. */
  function PairLine(kv: (string, Value)): string
  {
    "  " + @"\item \textbf{" + Escape(kv.0) + "}: " + Escape(Str(kv.1)) + "\n"
  }

  const ItemizeOpen: string := @"\begin{itemize}[leftmargin=0.15in]" + "\n"
  const ItemizeClose: string := @"\end{itemize}" + "\n" + @"\vspace{-8pt}" + "\n"

  function StringList(xs: seq<Value>): string
  {
    ItemizeOpen + Concat(xs, StringItem) + ItemizeClose
  }

  function CategoryList(categories: seq<Value>): string
  {
    " " + @"\begin{itemize}[leftmargin=0.15in, label={}]" + "\n"
    + "    " + @"\small{\item{" + "\n"
    + Concat(categories, CategoryLine)
    + "    }}\n" + " " + @"\end{itemize}" + "\n" + @"\vspace{-16pt}" + "\n"
  }

  function PairList(fs: seq<(string, Value)>): string
  {
    @"\begin{itemize}[leftmargin=0.15in]" + "\n"
    + ConcatFields(fs, PairLine)
    + @"\end{itemize}" + "\n" + @"\vspace{-8pt}" + "\n"
  }

  /** The text after the header, chosen by the shape of the section value. */
  function SectionBody(name: string, v: Value): string
  {
    match v
    case Text(s) => Escape(s) + "\n" + @"\vspace{-8pt}" + "\n"
    case List(xs) =>
      if xs == [] then ""
      else if xs[0].Record? then StructuredList(name, xs)
      else StringList(xs)
    case Record(fs) =>
      if HasKey(v, "categories") then CategoryList(Iter(GetOr(v, "categories", List([]))))
      else PairList(fs)
  }

  /** A whole section: empty for an empty list, the header followed by the
      body for every other value. */
  function SectionLatex(name: string, v: Value): (r: string)
    ensures r == "" <==> v == List([])
    ensures v != List([]) ==> SectionHeader(name) <= r
  {
    if v == List([]) then "" else SectionHeader(name) + SectionBody(name, v)
  }

  // ---- properties

  lemma SeparatedStep(items: seq<Value>, i: nat, f: Value -> string, sep: string, acc: string, e: string)
    requires i < |items| && acc == Separated(items, i, f, sep) && e == f(items[i])
    ensures Separated(items, i + 1, f, sep) == if i < |items| - 1 then acc + e + sep else acc + e
  {
  }

  /** The entries of a list, one text per item. */
  function Texts(items: seq<Value>, f: Value -> string): (ts: seq<string>)
    ensures |ts| == |items|
  {
    seq(|items|, i requires 0 <= i < |items| => f(items[i]))
  }

  lemma {:induction false} SeparatedPrefix(items: seq<Value>, k: nat, f: Value -> string, sep: string)
    requires 1 <= k <= |items|
    ensures Separated(items, k, f, sep)
            == Join(sep, Texts(items, f)[..k]) + (if k < |items| then sep else "")
  {
    var ts := Texts(items, f);
    if k == 1 {
      assert ts[..1] == [f(items[0])];
    } else {
      SeparatedPrefix(items, k - 1, f, sep);
      assert ts[..k][..k - 1] == ts[..k - 1];
      assert ts[..k][k - 1] == f(items[k - 1]);
    }
  }

  /** Separated entries are exactly the entries joined by the separator:
      one separator between each consecutive pair, none after the last. */
  lemma SeparatedIsJoin(items: seq<Value>, f: Value -> string, sep: string)
    ensures Separated(items, |items|, f, sep) == Join(sep, Texts(items, f))
  {
    if items != [] {
      SeparatedPrefix(items, |items|, f, sep);
      assert Texts(items, f)[..|items|] == Texts(items, f);
    }
  }

  /** The project layout: its entries joined by the spacing line. */
  lemma ProjectSeparators(name: string, items: seq<Value>)
    requires items != [] && Classify(Keys(items[0])) == ProjectLayout
    ensures StructuredList(name, items)
            == "    " + @"\resumeSubHeadingListStart" + "\n"
               + Join(ProjectSeparator, Texts(items, ProjectEntry))
               + "    " + @"\resumeSubHeadingListEnd" + "\n"
  {
    SeparatedIsJoin(items, ProjectEntry, ProjectSeparator);
  }

  /** The layout of a structured list depends on the key set of its first
      item only: neither the section name nor the later items choose it. */
  lemma LayoutFromFirstKeys(n1: string, n2: string, a: seq<Value>, b: seq<Value>)
    requires a != [] && b != [] && Keys(a[0]) == Keys(b[0])
    ensures Classify(Keys(a[0])) == Classify(Keys(b[0]))
    ensures StructuredList(n1, a) == StructuredList(n2, a)
  {
  }

  /** The first item alone picks the layout: whatever keys the later items
      have, every item is rendered in the first item's layout. */
  lemma FirstItemChoosesLayout(name: string, first: Value, rest: seq<Value>)
    ensures StructuredList(name, [first] + rest) == LayoutList(Classify(Keys(first)), [first] + rest)
  {
    assert ([first] + rest)[0] == first;
  }

  /** A non-empty string under `details` is chosen over `responsibilities`
      and `description`, and, not being a list, it gives no bullets at all. */
  lemma TextDetailsSuppressBullets(item: Value, s: string)
    requires Get(item, "details") == Some(Text(s)) && s != ""
    ensures InstitutionEntry(item) == InstitutionHeading(item)
  {
  }

  /** Absent or empty `details` fall back to `responsibilities`: a
      non-empty list there gives one bullet per element. */
  lemma ResponsibilitiesFallback(item: Value, xs: seq<Value>)
    requires Get(item, "details").None? || !Truthy(Get(item, "details").value)
    requires Get(item, "responsibilities") == Some(List(xs)) && xs != []
    ensures InstitutionEntry(item) == InstitutionHeading(item) + ItemBlock("      ", Concat(xs, DetailItem))
  {
  }

  /** A string project description renders as a one-element list holding it. */
  lemma ProjectTextDescription(s: string)
    requires s != ""
    ensures ProjectBullets(Text(s)) == ProjectBullets(List([Text(s)]))
  {
    var one := [Text(s)];
    assert one[..|one| - 1] == [];
    assert Concat(one, ProjectItem) == ProjectItem(Text(s));
    assert Truthy(Text(s)) && Truthy(List(one));
  }

  /** The generic fields after the name contribute nothing when every field
      other than `name` is falsy. */
  lemma {:induction false} OtherFieldsEmpty(fs: seq<(string, Value)>)
    requires forall i :: 0 <= i < |fs| ==> fs[i].0 == "name" || !Truthy(fs[i].1)
    ensures ConcatFields(fs, OtherField) == ""
  {
    if fs != [] {
      OtherFieldsEmpty(fs[..|fs| - 1]);
    }
  }

  /** A named generic item whose other fields are all falsy is its bold name alone. */
  lemma GenericNameOnly(item: Value)
    requires HasKey(item, "name")
    requires forall i :: 0 <= i < |Fields(item)| ==> Fields(item)[i].0 == "name" || !Truthy(Fields(item)[i].1)
    ensures GenericEntry(item) == "  " + @"\item \textbf{" + Escape(Str(GetOr(item, "name", Text("")))) + "}\n"
  {
    OtherFieldsEmpty(Fields(item));
  }

  /** The `key: value` texts keep the order of the fields. */
  lemma {:induction false} PairTextsAppend(a: seq<(string, Value)>, b: seq<(string, Value)>)
    ensures PairTexts(a + b) == PairTexts(a) + PairTexts(b)
  {
    if a == [] {
      assert a + b == b;
    } else {
      assert (a + b)[0] == a[0] && (a + b)[1..] == a[1..] + b;
      PairTextsAppend(a[1..], b);
    }
  }

  // ---- the renderers as loops

  /** The entry loop appends the heading lines, then the bullets one by one. */
  method RenderInstitutionEntry(item: Value) returns (r: string)
    ensures r == InstitutionEntry(item)
  {
    r := InstitutionHeading(item);
    var details := InstitutionDetails(item);
    if Truthy(details) && details.List? {
      var bullets := ConcatLoop(details.items, DetailItem);
      r := r + ItemBlock("      ", bullets);
    }
  }

  method RenderProjectEntry(item: Value) returns (r: string)
    ensures r == ProjectEntry(item)
  {
    r := ProjectHeading(item);
    var description := GetOr(item, "description", List([]));
    if Truthy(description) {
      if description.List? {
        var bullets := ConcatLoop(description.items, ProjectItem);
        r := r + ItemBlock("          ", bullets);
      } else if description.Text? {
        r := r + ItemBlock("          ", ProjectItem(description));
      }
    }
  }

  method RenderLeadershipEntry(item: Value) returns (r: string)
    ensures r == LeadershipEntry(item)
  {
    r := LeadershipHeading(item);
    var description := GetOr(item, "description", List([]));
    if Truthy(description) && description.List? {
      var bullets := ConcatLoop(description.items, LeadershipItem);
      r := r + ItemBlock("        ", bullets);
    }
  }

  method RenderGenericEntry(item: Value) returns (r: string)
    ensures r == GenericEntry(item)
  {
    if HasKey(item, "name") {
      r := "  " + @"\item \textbf{" + Escape(Str(GetOr(item, "name", Text("")))) + "}";
      var others := ConcatFieldsLoop(Fields(item), OtherField);
      r := r + others + "\n";
    } else {
      r := "  " + @"\item " + Escape(Join(", ", PairTexts(Fields(item)))) + "\n";
    }
  }

  method RenderInstitutionList(items: seq<Value>) returns (r: string)
    ensures r == InstitutionList(items)
  {
    var body := "";
    var i := 0;
    while i < |items|
      invariant 0 <= i <= |items|
      invariant body == Concat(items[..i], InstitutionEntry)
    {
      ConcatSnoc(items, i, InstitutionEntry);
      var e := RenderInstitutionEntry(items[i]);
      body := body + e;
      i := i + 1;
    }
    assert items[..i] == items;
    r := "  " + @"\resumeSubHeadingListStart" + "\n" + body
         + "  " + @"\resumeSubHeadingListEnd" + "\n" + @"\vspace{-16pt}" + "\n";
  }

  /** The project loop: the separator follows every entry but the last. */
  method RenderProjectList(items: seq<Value>) returns (r: string)
    ensures r == ProjectList(items)
  {
    var body := "";
    var i := 0;
    while i < |items|
      invariant 0 <= i <= |items|
      invariant body == Separated(items, i, ProjectEntry, ProjectSeparator)
    {
      var e := RenderProjectEntry(items[i]);
      SeparatedStep(items, i, ProjectEntry, ProjectSeparator, body, e);
      body := body + e;
      if i < |items| - 1 {
        body := body + ProjectSeparator;
      }
      i := i + 1;
    }
    r := "    " + @"\resumeSubHeadingListStart" + "\n" + body + "    " + @"\resumeSubHeadingListEnd" + "\n";
  }

  method RenderCertificationList(items: seq<Value>) returns (r: string)
    ensures r == CertificationList(items)
  {
    var body := "";
    var i := 0;
    while i < |items|
      invariant 0 <= i <= |items|
      invariant body == Concat(items[..i], CertificationEntry)
    {
      ConcatSnoc(items, i, CertificationEntry);
      body := body + CertificationEntry(items[i]);
      i := i + 1;
    }
    assert items[..i] == items;
    r := " " + @"\begin{itemize}[leftmargin=0.15in, label={}]" + "\n" + "    " + @"\small{\item{" + "\n"
         + body + "    }}\n" + " " + @"\end{itemize}" + "\n" + " " + @"\vspace{-16pt}" + "\n";
  }

  method RenderLeadershipList(items: seq<Value>) returns (r: string)
    ensures r == LeadershipList(items)
  {
    var body := "";
    var i := 0;
    while i < |items|
      invariant 0 <= i <= |items|
      invariant body == Concat(items[..i], LeadershipEntry)
    {
      ConcatSnoc(items, i, LeadershipEntry);
      var e := RenderLeadershipEntry(items[i]);
      body := body + e;
      i := i + 1;
    }
    assert items[..i] == items;
    r := "    " + @"\resumeSubHeadingListStart" + "\n" + body + "    " + @"\resumeSubHeadingListEnd" + "\n";
  }

  method RenderGenericList(items: seq<Value>) returns (r: string)
    ensures r == GenericList(items)
  {
    var body := "";
    var i := 0;
    while i < |items|
      invariant 0 <= i <= |items|
      invariant body == Concat(items[..i], GenericEntry)
    {
      ConcatSnoc(items, i, GenericEntry);
      var e := RenderGenericEntry(items[i]);
      body := body + e;
      i := i + 1;
    }
    assert items[..i] == items;
    r := @"\begin{itemize}[leftmargin=0.15in]" + "\n" + body + @"\end{itemize}" + "\n" + @"\vspace{-8pt}" + "\n";
  }

  /** `_render_structured_list`: the key tests in priority order. */
  method RenderStructuredList(sectionName: string, items: seq<Value>) returns (r: string)
    ensures r == StructuredList(sectionName, items)
  {
    if |items| == 0 {
      return "";
    }
    var keys := Keys(items[0]);
    if InstitutionKeys(keys) {
      r := RenderInstitutionList(items);
    } else if ProjectKeys(keys) {
      r := RenderProjectList(items);
    } else if CertificationKeys(keys) {
      r := RenderCertificationList(items);
    } else if LeadershipKeys(keys) {
      r := RenderLeadershipList(items);
    } else {
      r := RenderGenericList(items);
    }
  }

  method RenderStringList(xs: seq<Value>) returns (r: string)
    ensures r == StringList(xs)
  {
    var body := "";
    var i := 0;
    while i < |xs|
      invariant 0 <= i <= |xs|
      invariant body == Concat(xs[..i], StringItem)
    {
      ConcatSnoc(xs, i, StringItem);
      if xs[i].Text? {
        body := body + ("  " + @"\item " + Escape(xs[i].s) + "\n");
      }
      i := i + 1;
    }
    assert xs[..i] == xs;
    r := @"\begin{itemize}[leftmargin=0.15in]" + "\n" + body + @"\end{itemize}" + "\n" + @"\vspace{-8pt}" + "\n";
  }

  method RenderCategoryList(categories: seq<Value>) returns (r: string)
    ensures r == CategoryList(categories)
  {
    var body := "";
    var i := 0;
    while i < |categories|
      invariant 0 <= i <= |categories|
      invariant body == Concat(categories[..i], CategoryLine)
    {
      ConcatSnoc(categories, i, CategoryLine);
      body := body + CategoryLine(categories[i]);
      i := i + 1;
    }
    assert categories[..i] == categories;
    r := " " + @"\begin{itemize}[leftmargin=0.15in, label={}]" + "\n" + "    " + @"\small{\item{" + "\n"
         + body + "    }}\n" + " " + @"\end{itemize}" + "\n" + @"\vspace{-16pt}" + "\n";
  }

  method RenderPairList(fs: seq<(string, Value)>) returns (r: string)
    ensures r == PairList(fs)
  {
    var body := "";
    var i := 0;
    while i < |fs|
      invariant 0 <= i <= |fs|
      invariant body == ConcatFields(fs[..i], PairLine)
    {
      ConcatFieldsSnoc(fs, i, PairLine);
      body := body + PairLine(fs[i]);
      i := i + 1;
    }
    assert fs[..i] == fs;
    r := @"\begin{itemize}[leftmargin=0.15in]" + "\n" + body + @"\end{itemize}" + "\n" + @"\vspace{-8pt}" + "\n";
  }

  /** `_render_section_dynamically`: the header, then a body chosen by the
      shape of the value. */
  method RenderSection(name: string, v: Value) returns (r: string)
    ensures r == SectionLatex(name, v)
  {
    var title := SectionTitle(name);
    r := "\n%-----------" + Upper(title) + "-----------\n";
    r := r + @"\section{" + title + "}\n";
    var body: string;
    match v {
      case Text(s) =>
        body := Escape(s) + "\n" + @"\vspace{-8pt}" + "\n";
      case List(xs) =>
        if xs == [] {
          return "";
        }
        if xs[0].Record? {
          body := RenderStructuredList(name, xs);
        } else {
          body := RenderStringList(xs);
        }
      case Record(fs) =>
        if HasKey(v, "categories") {
          body := RenderCategoryList(Iter(GetOr(v, "categories", List([]))));
        } else {
          body := RenderPairList(fs);
        }
    }
    r := r + body;
  }
}
