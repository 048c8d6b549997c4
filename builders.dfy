/** The fixed-template builders: one text per predefined section, and the
    flat table of template variables that fixed mode substitutes. Unlike
    the structure renderer, the skills, certification and leadership
    builders and the heading values insert user text without escaping. */
module SectionBuilders {
  import opened Strings
  import opened SectionValues
  import opened LatexEscape
  import opened StructureRenderer

  // ---- education and experience

  /** A bullet of a fixed-template list: the item is escaped as given. */
  function BulletItem(d: Value): string
  {
    "        " + @"\resumeItem{" + EscapeValue(d) + "}\n"
  }

  /** An education or experience entry. The two builders differ only in the
      keys they read: `institution`/`degree`/`details` or
      `company`/`position`/`responsibilities`. */
  function SubheadingEntry(item: Value, titleKey: string, subtitleKey: string, bulletsKey: string): (r: string)
    ensures SubheadingHeading(item, titleKey, subtitleKey) <= r
    ensures r == SubheadingHeading(item, titleKey, subtitleKey) <==>
      !(HasKey(item, bulletsKey) && Truthy(GetOr(item, bulletsKey, List([]))))
  {
    var bullets := GetOr(item, bulletsKey, List([]));
    SubheadingHeading(item, titleKey, subtitleKey)
    + (if HasKey(item, bulletsKey) && Truthy(bullets) then ItemBlock("      ", Concat(Iter(bullets), BulletItem))
       else "")
  }

  /** The two heading lines of an education or experience entry. */
  function SubheadingHeading(item: Value, titleKey: string, subtitleKey: string): string
  {
    "    " + @"\resumeSubheading" + "\n"
    + "      {" + FieldText(item, titleKey) + "}{" + FieldText(item, "location") + "}\n"
    + "      {" + FieldText(item, subtitleKey) + "}{" + FieldText(item, "date") + "}\n"
  }

  function EducationEntry(item: Value): string
  {
    SubheadingEntry(item, "institution", "degree", "details")
  }

  function ExperienceEntry(item: Value): string
  {
    SubheadingEntry(item, "company", "position", "responsibilities")
  }

  function EducationSection(list: Value): string
  {
    Concat(Iter(list), EducationEntry)
  }

  function ExperienceSection(list: Value): string
  {
    Concat(Iter(list), ExperienceEntry)
  }

  // ---- projects

  function ProjectBullet(d: Value): string
  {
    "            " + @"\resumeItem{" + EscapeValue(d) + "}\n"
  }

  /** A fixed-template project entry: the technology part of the title is
      always present, even when empty, and no spacing line follows. */
  function FixedProjectEntry(item: Value): string
  {
    FixedProjectHeading(item) + FixedProjectItems(item)
  }

  /** The technology list of a fixed-template project: its items escaped
      and joined, or empty. */
  function FixedTech(item: Value): string
  {
    var technologies := GetOr(item, "technologies", List([]));
    if Truthy(technologies) then Join(", ", EscapeValues(Iter(technologies))) else ""
  }

  /** The heading line and the title/date line of a project entry. The
      escaped name is linked to the url as given when the url is not
      blank, and the technology part follows in every case. */
  function FixedProjectHeading(item: Value): (r: string)
    ensures var url := GetOr(item, "url", Text(""));
      HasUrl(url) ==>
        ProjectHeadingLine + "          {" + @"\textbf{\href{" + Str(url) + "}{" + FieldText(item, "name") + "}}" <= r
    ensures !HasUrl(GetOr(item, "url", Text(""))) ==>
      ProjectHeadingLine + "          {" + @"\textbf{" + FieldText(item, "name") + "}" <= r
    ensures EndsWith(r, @" $|$ \emph{" + FixedTech(item) + "}}{" + FieldText(item, "date") + "}\n")
  {
    var name := FieldText(item, "name");
    var url := GetOr(item, "url", Text(""));
    var rest := @" $|$ \emph{" + FixedTech(item) + "}}{" + FieldText(item, "date") + "}\n";
    if HasUrl(url) then
      ProjectHeadingLine + "          {" + @"\textbf{\href{" + Str(url) + "}{" + name + "}}" + rest
    else
      ProjectHeadingLine + "          {" + @"\textbf{" + name + "}" + rest
  }

  const ProjectHeadingLine: string := "      " + @"\resumeProjectHeading" + "\n"

  /** The bullet list of a project entry, present only for a non-empty
      `description`. */
  function FixedProjectItems(item: Value): (r: string)
    ensures r == "" <==> !(HasKey(item, "description") && Truthy(GetOr(item, "description", List([]))))
  {
    var description := GetOr(item, "description", List([]));
    if HasKey(item, "description") && Truthy(description) then
      ItemBlock("          ", Concat(Iter(description), ProjectBullet))
    else ""
  }

  /** `[_escape_latex(t) for t in ts]`. */
  function EscapeValues(xs: seq<Value>): (r: seq<string>)
    ensures |r| == |xs|
    ensures forall i :: 0 <= i < |xs| ==> r[i] == EscapeValue(xs[i])
  {
    if xs == [] then [] else [EscapeValue(xs[0])] + EscapeValues(xs[1..])
  }

  function ProjectsSection(list: Value): string
  {
    Concat(Iter(list), FixedProjectEntry)
  }

  // ---- skills

  /** `str` of each element, as `", ".join` sees them. */
  function Strs(xs: seq<Value>): (r: seq<string>)
    ensures |r| == |xs|
    ensures forall i :: 0 <= i < |xs| ==> r[i] == Str(xs[i])
  {
    if xs == [] then [] else [Str(xs[0])] + Strs(xs[1..])
  }

  /** One skills line: category name and items, neither escaped. */
  function SkillLine(category: Value): string
  {
    var items := GetOr(category, "items", List([]));
    var itemText := if Truthy(items) then Join(", ", Strs(Iter(items))) else "";
    "     " + @"\textbf{" + Str(GetOr(category, "name", Text(""))) + "}{: " + itemText + @"} \\"
  }

  function SkillLines(categories: seq<Value>): (r: seq<string>)
    ensures |r| == |categories|
    ensures forall i :: 0 <= i < |categories| ==> r[i] == SkillLine(categories[i])
  {
    MapValues(categories, SkillLine)
  }

  /** The skills lines joined by newlines; empty without `categories`. */
  function SkillsSection(skills: Value): string
  {
    if HasKey(skills, "categories") then Join("\n", SkillLines(Iter(GetOr(skills, "categories", List([])))))
    else ""
  }

  // ---- certifications and leadership

  /** A certification line; name, issuer, date and url are inserted as
      given, and any truthy url makes a link. */
  function CertificationLine(cert: Value): (r: string)
    ensures var url := GetOr(cert, "url", Text(""));
      Truthy(url) ==> "     " + @"\textbf{\href{" + Str(url) + "}{" + RawField(cert, "name") + "}}" <= r
    ensures !Truthy(GetOr(cert, "url", Text(""))) ==> "     " + @"\textbf{" + RawField(cert, "name") + "}" <= r
    ensures EndsWith(r, " - " + RawField(cert, "issuer") + " (" + RawField(cert, "date") + @") \\" + "\n")
  {
    var name := RawField(cert, "name");
    var rest := " - " + RawField(cert, "issuer") + " (" + RawField(cert, "date") + @") \\" + "\n";
    var url := GetOr(cert, "url", Text(""));
    if Truthy(url) then
      "     " + @"\textbf{\href{" + Str(url) + "}{" + name + "}}" + rest
    else
      "     " + @"\textbf{" + name + "}" + rest
  }

  /** `str(item.get(key, ""))`, inserted without escaping. */
  function RawField(item: Value, key: string): string
  {
    Str(GetOr(item, key, Text("")))
  }

  function CertificationsSection(list: Value): string
  {
    if !Truthy(list) then ""
    else
      @"\section{Certifications}" + "\n"
      + " " + @"\begin{itemize}[leftmargin=0.15in, label={}]" + "\n"
      + "    " + @"\small{\item{" + "\n"
      + Concat(Iter(list), CertificationLine)
      + "    }}\n" + " " + @"\end{itemize}" + "\n" + " " + @"\vspace{-16pt}" + "\n"
  }

  function RawBullet(d: Value): string
  {
    "          " + @"\resumeItem{" + Str(d) + "}\n"
  }

  /** The two heading lines of a fixed-template leadership entry, unescaped. */
  function FixedLeadershipHeading(lead: Value): string
  {
    "      " + @"\resumeSubheading" + "\n"
    + "        {" + RawField(lead, "organization") + "}{}\n"
    + "        {" + RawField(lead, "role") + "}{" + RawField(lead, "date") + "}\n"
  }

  /** A leadership entry; every field is inserted as given, and the bullet
      block is present exactly when `description` is present and truthy. */
  function FixedLeadershipEntry(lead: Value): (r: string)
    ensures FixedLeadershipHeading(lead) <= r
    ensures r == FixedLeadershipHeading(lead) <==>
      !(HasKey(lead, "description") && Truthy(GetOr(lead, "description", List([]))))
  {
    var description := GetOr(lead, "description", List([]));
    FixedLeadershipHeading(lead)
    + (if HasKey(lead, "description") && Truthy(description)
       then ItemBlock("        ", Concat(Iter(description), RawBullet)) else "")
  }

  function LeadershipSection(list: Value): string
  {
    if !Truthy(list) then ""
    else
      @"\section{Leadership / Extracurricular}" + "\n"
      + "    " + @"\resumeSubHeadingListStart" + "\n"
      + Concat(Iter(list), FixedLeadershipEntry)
      + "    " + @"\resumeSubHeadingListEnd" + "\n"
  }

  // ---- the template variables

  /** The heading placeholders, in the order their values are set. */
  const HeadingNames: seq<string> := ["FULL_NAME", "ADDRESS_LINE", "PHONE_NUMBER", "EMAIL_ADDRESS",
                                      "LINKEDIN_URL", "LINKEDIN_USERNAME", "GITHUB_URL", "GITHUB_USERNAME",
                                      "ADDITIONAL_LINKS"]

  /** The section placeholders, always set, in this order. */
  const SectionNames: seq<string> := ["EDUCATION_SECTION", "EXPERIENCE_SECTION", "PROJECTS_SECTION",
                                      "SKILLS_SECTION", "CERTIFICATIONS_SECTION", "LEADERSHIP_SECTION"]

  /** One additional heading link: icon and display text default to
      `faLink` and the url. */
  function LinkText(link: Value): string
  {
    var url := GetOr(link, "url", Text(""));
    "~\n    " + @"\href{" + Str(url) + @"}{\raisebox{-0.2\height}\" + Str(GetOr(link, "icon", Text("faLink")))
    + @"\ \underline{" + Str(GetOr(link, "display_text", url)) + "}}"
  }

  /** `heading[key].get(field, "")` when `key` is present, else `""`. */
  function SubField(heading: Value, key: string, field: string): Value
  {
    if HasKey(heading, key) then GetOr(GetOr(heading, key, Record([])), field, Text("")) else Text("")
  }

  function AdditionalLinks(heading: Value): string
  {
    var links := GetOr(heading, "additional_links", List([]));
    if HasKey(heading, "additional_links") && Truthy(links) then Concat(Iter(links), LinkText) else ""
  }

  /** The heading values: set only when the data has a `heading`. The
      values are taken as given, so they reach the document unescaped. */
  function HeadingVars(data: Value): (vs: seq<(string, Value)>)
  {
    if !HasKey(data, "heading") then []
    else
      var h := GetOr(data, "heading", Record([]));
      [("FULL_NAME", GetOr(h, "full_name", Text(""))),
       ("ADDRESS_LINE", GetOr(h, "address", Text(""))),
       ("PHONE_NUMBER", GetOr(h, "phone", Text(""))),
       ("EMAIL_ADDRESS", GetOr(h, "email", Text(""))),
       ("LINKEDIN_URL", SubField(h, "linkedin", "url")),
       ("LINKEDIN_USERNAME", SubField(h, "linkedin", "username")),
       ("GITHUB_URL", SubField(h, "github", "url")),
       ("GITHUB_USERNAME", SubField(h, "github", "username")),
       ("ADDITIONAL_LINKS", Text(AdditionalLinks(h)))]
  }

  /** The text of each section variable: empty when its key is absent
      and, for the two optional sections, also when their list is empty. */
  function EducationText(data: Value): string
  {
    if HasKey(data, "education") then EducationSection(GetOr(data, "education", List([]))) else ""
  }

  function ExperienceText(data: Value): string
  {
    if HasKey(data, "experience") then ExperienceSection(GetOr(data, "experience", List([]))) else ""
  }

  function ProjectsText(data: Value): string
  {
    if HasKey(data, "projects") then ProjectsSection(GetOr(data, "projects", List([]))) else ""
  }

  function SkillsText(data: Value): string
  {
    if HasKey(data, "skills") then SkillsSection(GetOr(data, "skills", Record([]))) else ""
  }

  function CertificationsText(data: Value): string
  {
    if HasKey(data, "certifications") && Truthy(GetOr(data, "certifications", List([])))
    then CertificationsSection(GetOr(data, "certifications", List([]))) else ""
  }

  function LeadershipText(data: Value): string
  {
    if HasKey(data, "leadership") && Truthy(GetOr(data, "leadership", List([])))
    then LeadershipSection(GetOr(data, "leadership", List([]))) else ""
  }

  /** The six section variables, in insertion order, holding the given texts. */
  function SectionVarsOf(education: string, experience: string, projects: string,
                         skills: string, certifications: string, leadership: string): seq<(string, Value)>
  {
    [("EDUCATION_SECTION", Text(education)),
     ("EXPERIENCE_SECTION", Text(experience)),
     ("PROJECTS_SECTION", Text(projects)),
     ("SKILLS_SECTION", Text(skills)),
     ("CERTIFICATIONS_SECTION", Text(certifications)),
     ("LEADERSHIP_SECTION", Text(leadership))]
  }

  /** The six section variables of the data. */
  function SectionVars(data: Value): (vs: seq<(string, Value)>)
  {
    SectionVarsOf(EducationText(data), ExperienceText(data), ProjectsText(data),
                  SkillsText(data), CertificationsText(data), LeadershipText(data))
  }

  /** `_map_json_to_template_vars`, in insertion order. */
  function TemplateVars(data: Value): seq<(string, Value)>
  {
    HeadingVars(data) + SectionVars(data)
  }

  function Names(vs: seq<(string, Value)>): (ns: seq<string>)
    ensures |ns| == |vs|
    ensures forall i :: 0 <= i < |vs| ==> ns[i] == vs[i].0
  {
    if vs == [] then [] else [vs[0].0] + Names(vs[1..])
  }

  // ---- properties

  lemma NamesAppend(a: seq<(string, Value)>, b: seq<(string, Value)>)
    ensures Names(a + b) == Names(a) + Names(b)
  {
  }

  lemma SectionVarNames(data: Value)
    ensures Names(SectionVars(data)) == SectionNames
  {
    var vs := SectionVars(data);
    var ns := Names(vs);
    assert |ns| == |SectionNames|;
    forall i | 0 <= i < |ns| ensures ns[i] == SectionNames[i] {
      assert ns[i] == vs[i].0;
    }
  }

  lemma HeadingPairNames(a: Value, b: Value, c: Value, d: Value, e: Value, f: Value, g: Value, h: Value, k: Value)
    ensures Names([("FULL_NAME", a), ("ADDRESS_LINE", b), ("PHONE_NUMBER", c), ("EMAIL_ADDRESS", d),
                   ("LINKEDIN_URL", e), ("LINKEDIN_USERNAME", f), ("GITHUB_URL", g),
                   ("GITHUB_USERNAME", h), ("ADDITIONAL_LINKS", k)]) == HeadingNames
  {
    var vs := [("FULL_NAME", a), ("ADDRESS_LINE", b), ("PHONE_NUMBER", c), ("EMAIL_ADDRESS", d),
               ("LINKEDIN_URL", e), ("LINKEDIN_USERNAME", f), ("GITHUB_URL", g),
               ("GITHUB_USERNAME", h), ("ADDITIONAL_LINKS", k)];
    var ns := Names(vs);
    assert |ns| == |HeadingNames|;
    forall i | 0 <= i < |ns| ensures ns[i] == HeadingNames[i] {
      assert ns[i] == vs[i].0;
    }
  }

  lemma HeadingVarNames(data: Value)
    requires HasKey(data, "heading")
    ensures Names(HeadingVars(data)) == HeadingNames
  {
    var h := GetOr(data, "heading", Record([]));
    HeadingPairNames(GetOr(h, "full_name", Text("")), GetOr(h, "address", Text("")),
                     GetOr(h, "phone", Text("")), GetOr(h, "email", Text("")),
                     SubField(h, "linkedin", "url"), SubField(h, "linkedin", "username"),
                     SubField(h, "github", "url"), SubField(h, "github", "username"),
                     Text(AdditionalLinks(h)));
  }

  /** Fixed mode sets the nine heading variables exactly when the data has
      a heading, and the six section variables always, in this order. */
  lemma TemplateVarNames(data: Value)
    ensures Names(TemplateVars(data)) == (if HasKey(data, "heading") then HeadingNames else []) + SectionNames
  {
    NamesAppend(HeadingVars(data), SectionVars(data));
    SectionVarNames(data);
    if HasKey(data, "heading") {
      HeadingVarNames(data);
    } else {
      assert Names(HeadingVars(data)) == [];
    }
  }

  /** The certification and leadership sections are never empty for a
      non-empty list: both open with their `\section` line. */
  lemma OptionalSectionsNonEmpty(list: Value)
    requires Truthy(list)
    ensures CertificationsSection(list) != "" && LeadershipSection(list) != ""
  {
    assert |CertificationsSection(list)| > 0;
    assert |LeadershipSection(list)| > 0;
  }

  /** The two optional section variables are empty exactly when their key
      is absent or its value is empty. */
  lemma OptionalSectionVars(data: Value)
    ensures SectionVars(data)[4] == ("CERTIFICATIONS_SECTION", Text("")) <==>
      !HasKey(data, "certifications") || !Truthy(GetOr(data, "certifications", List([])))
    ensures SectionVars(data)[5] == ("LEADERSHIP_SECTION", Text("")) <==>
      !HasKey(data, "leadership") || !Truthy(GetOr(data, "leadership", List([])))
  {
    var certs := GetOr(data, "certifications", List([]));
    var leads := GetOr(data, "leadership", List([]));
    if Truthy(certs) { OptionalSectionsNonEmpty(certs); }
    if Truthy(leads) { OptionalSectionsNonEmpty(leads); }
  }

  /** The four main section variables are empty when their key is absent,
      and otherwise hold the section built from the value, empty or not. */
  lemma MainSectionVars(data: Value)
    ensures !HasKey(data, "education") ==> SectionVars(data)[0] == ("EDUCATION_SECTION", Text(""))
    ensures !HasKey(data, "experience") ==> SectionVars(data)[1] == ("EXPERIENCE_SECTION", Text(""))
    ensures !HasKey(data, "projects") ==> SectionVars(data)[2] == ("PROJECTS_SECTION", Text(""))
    ensures !HasKey(data, "skills") ==> SectionVars(data)[3] == ("SKILLS_SECTION", Text(""))
    ensures HasKey(data, "education") ==>
      SectionVars(data)[0].1 == Text(EducationSection(Get(data, "education").value))
    ensures HasKey(data, "experience") ==>
      SectionVars(data)[1].1 == Text(ExperienceSection(Get(data, "experience").value))
    ensures HasKey(data, "projects") ==>
      SectionVars(data)[2].1 == Text(ProjectsSection(Get(data, "projects").value))
    ensures HasKey(data, "skills") ==>
      SectionVars(data)[3].1 == Text(SkillsSection(Get(data, "skills").value))
  {
    var vs := SectionVars(data);
    assert vs[0] == ("EDUCATION_SECTION", Text(EducationText(data)));
    assert vs[1] == ("EXPERIENCE_SECTION", Text(ExperienceText(data)));
    assert vs[2] == ("PROJECTS_SECTION", Text(ProjectsText(data)));
    assert vs[3] == ("SKILLS_SECTION", Text(SkillsText(data)));
  }

  /** A blank url still makes a link in the fixed template, whose test is
      plain truthiness, while the structure renderer strips it first and
      gives the unlinked name. */
  lemma BlankUrlLinksOnlyInFixedTemplate(item: Value)
    requires GetOr(item, "url", Text("")) == Text(" ")
    ensures "     " + @"\textbf{\href{" + " " + "}{" + RawField(item, "name") + "}}" <= CertificationLine(item)
    ensures "     " + @"\textbf{" + FieldText(item, "name") + "}" <= CertificationEntry(item)
  {
    var url := Text(" ");
    assert Str(url) == " " && Truthy(url);
    assert !NonBlank(" ") by { assert IsSpace(" "[0]); }
    assert !HasUrl(url);
  }

  /** Without url and technologies, the structure renderer's project title
      is the bold name alone, while the fixed template still appends an
      empty technology part. */
  lemma EmptyTechnologiesKeptInFixedTemplate(item: Value)
    requires !HasUrl(GetOr(item, "url", Text(""))) && !HasKey(item, "technologies")
    ensures ProjectTitle(item) == @"\textbf{" + FieldText(item, "name") + "}"
    ensures EndsWith(FixedProjectHeading(item), @" $|$ \emph{}}{" + FieldText(item, "date") + "}\n")
  {
    assert GetOr(item, "technologies", List([])) == List([]);
    assert ProjectTech(item) == "" && FixedTech(item) == "";
    var d := FieldText(item, "date");
    assert @" $|$ \emph{" + FixedTech(item) == @" $|$ \emph{";
    assert @" $|$ \emph{" + "}}{" == @" $|$ \emph{}}{";
    assert @" $|$ \emph{" + FixedTech(item) + "}}{" + d + "}\n" == @" $|$ \emph{}}{" + d + "}\n";
  }

  /** The fixed education builder reads only `details`: without it there
      are no bullets, whatever `responsibilities` or `description` hold. */
  lemma FixedEducationReadsDetailsOnly(item: Value)
    requires !HasKey(item, "details")
    ensures EducationEntry(item) == SubheadingHeading(item, "institution", "degree")
  {
  }

  /** Category names reach the document as given in both modes: a name
      `R&D` is written with its bare `&`. */
  lemma CategoryNamesUnescaped()
    ensures var c := Record([("name", Text("R&D"))]);
      "     " + @"\textbf{" + "R&D" <= CategoryLine(c) && "     " + @"\textbf{" + "R&D" <= SkillLine(c)
  {
    var c := Record([("name", Text("R&D"))]);
    assert GetOr(c, "name", Text("")) == Text("R&D");
  }

  /** An entry list without separators: the section of two lists is the
      section of the first followed by that of the second. */
  lemma {:induction false} ConcatAppend(xs: seq<Value>, ys: seq<Value>, f: Value -> string)
    ensures Concat(xs + ys, f) == Concat(xs, f) + Concat(ys, f)
    decreases |ys|
  {
    if ys == [] {
      assert xs + ys == xs;
    } else {
      var n := |ys| - 1;
      assert (xs + ys)[..|xs + ys| - 1] == xs + ys[..n];
      ConcatAppend(xs, ys[..n], f);
    }
  }

  /** The fixed-template education, experience and project sections are
      plain concatenations of their entries: splitting the list splits the
      text, and no spacing line is placed between projects. */
  lemma SectionsSplit(a: seq<Value>, b: seq<Value>)
    ensures EducationSection(List(a + b)) == EducationSection(List(a)) + EducationSection(List(b))
    ensures ExperienceSection(List(a + b)) == ExperienceSection(List(a)) + ExperienceSection(List(b))
    ensures ProjectsSection(List(a + b)) == ProjectsSection(List(a)) + ProjectsSection(List(b))
  {
    ConcatAppend(a, b, EducationEntry);
    ConcatAppend(a, b, ExperienceEntry);
    ConcatAppend(a, b, FixedProjectEntry);
  }

  // ---- the builders as loops

  method BuildSubheadingEntry(item: Value, titleKey: string, subtitleKey: string, bulletsKey: string)
    returns (r: string)
    ensures r == SubheadingEntry(item, titleKey, subtitleKey, bulletsKey)
  {
    r := SubheadingHeading(item, titleKey, subtitleKey);
    if HasKey(item, bulletsKey) && Truthy(GetOr(item, bulletsKey, List([]))) {
      var bullets := ConcatLoop(Iter(GetOr(item, bulletsKey, List([]))), BulletItem);
      r := r + ItemBlock("      ", bullets);
    }
  }

  method BuildEducationSection(list: Value) returns (section: string)
    ensures section == EducationSection(list)
  {
    var items := Iter(list);
    section := "";
    var i := 0;
    while i < |items|
      invariant 0 <= i <= |items|
      invariant section == Concat(items[..i], EducationEntry)
    {
      ConcatSnoc(items, i, EducationEntry);
      var e := BuildSubheadingEntry(items[i], "institution", "degree", "details");
      section := section + e;
      i := i + 1;
    }
    assert items[..i] == items;
  }

  method BuildExperienceSection(list: Value) returns (section: string)
    ensures section == ExperienceSection(list)
  {
    var items := Iter(list);
    section := "";
    var i := 0;
    while i < |items|
      invariant 0 <= i <= |items|
      invariant section == Concat(items[..i], ExperienceEntry)
    {
      ConcatSnoc(items, i, ExperienceEntry);
      var e := BuildSubheadingEntry(items[i], "company", "position", "responsibilities");
      section := section + e;
      i := i + 1;
    }
    assert items[..i] == items;
  }

  method BuildProjectEntry(item: Value) returns (r: string)
    ensures r == FixedProjectEntry(item)
  {
    r := FixedProjectHeading(item);
    if HasKey(item, "description") && Truthy(GetOr(item, "description", List([]))) {
      var bullets := ConcatLoop(Iter(GetOr(item, "description", List([]))), ProjectBullet);
      r := r + ItemBlock("          ", bullets);
    } else {
      assert r + "" == r;
    }
  }

  method BuildProjectsSection(list: Value) returns (section: string)
    ensures section == ProjectsSection(list)
  {
    var items := Iter(list);
    section := "";
    var i := 0;
    while i < |items|
      invariant 0 <= i <= |items|
      invariant section == Concat(items[..i], FixedProjectEntry)
    {
      ConcatSnoc(items, i, FixedProjectEntry);
      var e := BuildProjectEntry(items[i]);
      section := section + e;
      i := i + 1;
    }
    assert items[..i] == items;
  }

  /** The loop collecting one line per category. */
  method CollectSkillLines(categories: seq<Value>) returns (lines: seq<string>)
    ensures lines == SkillLines(categories)
  {
    lines := [];
    var i := 0;
    while i < |categories|
      invariant 0 <= i <= |categories|
      invariant lines == SkillLines(categories[..i])
    {
      MapValuesSnoc(categories, i, SkillLine);
      lines := lines + [SkillLine(categories[i])];
      i := i + 1;
    }
    assert categories[..i] == categories;
  }

  /** `_build_skills_section`: collect the lines, then join them. */
  method BuildSkillsSection(skills: Value) returns (section: string)
    ensures section == SkillsSection(skills)
  {
    section := "";
    if HasKey(skills, "categories") {
      var lines := CollectSkillLines(Iter(GetOr(skills, "categories", List([]))));
      section := Join("\n", lines);
    }
  }

  method BuildCertificationsSection(list: Value) returns (section: string)
    ensures section == CertificationsSection(list)
  {
    if !Truthy(list) {
      return "";
    }
    var items := Iter(list);
    var body := "";
    var i := 0;
    while i < |items|
      invariant 0 <= i <= |items|
      invariant body == Concat(items[..i], CertificationLine)
    {
      ConcatSnoc(items, i, CertificationLine);
      body := body + CertificationLine(items[i]);
      i := i + 1;
    }
    assert items[..i] == items;
    section := @"\section{Certifications}" + "\n"
               + " " + @"\begin{itemize}[leftmargin=0.15in, label={}]" + "\n"
               + "    " + @"\small{\item{" + "\n"
               + body
               + "    }}\n" + " " + @"\end{itemize}" + "\n" + " " + @"\vspace{-16pt}" + "\n";
  }

  method BuildLeadershipEntry(lead: Value) returns (r: string)
    ensures r == FixedLeadershipEntry(lead)
  {
    r := FixedLeadershipHeading(lead);
    if HasKey(lead, "description") && Truthy(GetOr(lead, "description", List([]))) {
      var bullets := ConcatLoop(Iter(GetOr(lead, "description", List([]))), RawBullet);
      r := r + ItemBlock("        ", bullets);
    }
  }

  method BuildLeadershipSection(list: Value) returns (section: string)
    ensures section == LeadershipSection(list)
  {
    if !Truthy(list) {
      return "";
    }
    var items := Iter(list);
    var body := "";
    var i := 0;
    while i < |items|
      invariant 0 <= i <= |items|
      invariant body == Concat(items[..i], FixedLeadershipEntry)
    {
      ConcatSnoc(items, i, FixedLeadershipEntry);
      var e := BuildLeadershipEntry(items[i]);
      body := body + e;
      i := i + 1;
    }
    assert items[..i] == items;
    section := @"\section{Leadership / Extracurricular}" + "\n"
               + "    " + @"\resumeSubHeadingListStart" + "\n"
               + body
               + "    " + @"\resumeSubHeadingListEnd" + "\n";
  }

  /** The heading part of `_map_json_to_template_vars`, with its loop over
      the additional links. */
  method BuildHeadingVars(data: Value) returns (vars: seq<(string, Value)>)
    ensures vars == HeadingVars(data)
  {
    vars := [];
    if HasKey(data, "heading") {
      var h := GetOr(data, "heading", Record([]));
      var links := "";
      if HasKey(h, "additional_links") && Truthy(GetOr(h, "additional_links", List([]))) {
        links := ConcatLoop(Iter(GetOr(h, "additional_links", List([]))), LinkText);
      }
      vars := [("FULL_NAME", GetOr(h, "full_name", Text(""))),
               ("ADDRESS_LINE", GetOr(h, "address", Text(""))),
               ("PHONE_NUMBER", GetOr(h, "phone", Text(""))),
               ("EMAIL_ADDRESS", GetOr(h, "email", Text(""))),
               ("LINKEDIN_URL", SubField(h, "linkedin", "url")),
               ("LINKEDIN_USERNAME", SubField(h, "linkedin", "username")),
               ("GITHUB_URL", SubField(h, "github", "url")),
               ("GITHUB_USERNAME", SubField(h, "github", "username")),
               ("ADDITIONAL_LINKS", Text(links))];
    }
  }

  /** Each section text of `_map_json_to_template_vars`: the builder is
      called only when the key is present (and, for the optional sections,
      its list non-empty). */
  method BuildEducationText(data: Value) returns (text: string)
    ensures text == EducationText(data)
  {
    text := "";
    if HasKey(data, "education") {
      text := BuildEducationSection(GetOr(data, "education", List([])));
    }
  }

  method BuildExperienceText(data: Value) returns (text: string)
    ensures text == ExperienceText(data)
  {
    text := "";
    if HasKey(data, "experience") {
      text := BuildExperienceSection(GetOr(data, "experience", List([])));
    }
  }

  method BuildProjectsText(data: Value) returns (text: string)
    ensures text == ProjectsText(data)
  {
    text := "";
    if HasKey(data, "projects") {
      text := BuildProjectsSection(GetOr(data, "projects", List([])));
    }
  }

  method BuildSkillsText(data: Value) returns (text: string)
    ensures text == SkillsText(data)
  {
    text := "";
    if HasKey(data, "skills") {
      text := BuildSkillsSection(GetOr(data, "skills", Record([])));
    }
  }

  method BuildCertificationsText(data: Value) returns (text: string)
    ensures text == CertificationsText(data)
  {
    text := "";
    if HasKey(data, "certifications") && Truthy(GetOr(data, "certifications", List([]))) {
      text := BuildCertificationsSection(GetOr(data, "certifications", List([])));
    }
  }

  method BuildLeadershipText(data: Value) returns (text: string)
    ensures text == LeadershipText(data)
  {
    text := "";
    if HasKey(data, "leadership") && Truthy(GetOr(data, "leadership", List([]))) {
      text := BuildLeadershipSection(GetOr(data, "leadership", List([])));
    }
  }

  /** The section part of `_map_json_to_template_vars`. */
  method BuildSectionVars(data: Value) returns (vars: seq<(string, Value)>)
    ensures vars == SectionVars(data)
  {
    var education := BuildEducationText(data);
    var experience := BuildExperienceText(data);
    var projects := BuildProjectsText(data);
    var skills := BuildSkillsText(data);
    var certifications := BuildCertificationsText(data);
    var leadership := BuildLeadershipText(data);
    vars := SectionVarsOf(education, experience, projects, skills, certifications, leadership);
  }

  /** `_map_json_to_template_vars`: the heading values, then the six
      section texts. */
  method MapJsonToTemplateVars(data: Value) returns (vars: seq<(string, Value)>)
    ensures vars == TemplateVars(data)
  {
    var heading := BuildHeadingVars(data);
    var sections := BuildSectionVars(data);
    vars := heading + sections;
  }
}
