# Resume LaTeX engine and user table, modelled in Dafny

This project models two pieces of a resume-building web service.

The LaTeX document engine (`LaTeXService`) has four layers:

- the text escaper;
- the shape-directed section renderer, which picks a layout from the structure of a section's value and never from its name;
- the template composer. Given a resume record it chooses between two modes:
  - fixed mode fills `{{VAR}}` placeholders from a flat variable table;
  - dynamic mode fills the heading placeholders and splices the ordered sections over the body of the template;
- the PDF compilation ladder, taken as a decision over what each backend did.

The user table of the authentication routes has three operations:

- password login by email or username;
- the get-or-create step of an OAuth login, including its username-generation loop;
- registration.

Files and modules:

| file | module | contents |
|---|---|---|
| `strings.dfy` | `Strings` | Python's `str.replace`, `in`, `join`, `split('@')[0]`, `strip`, `title`, `upper` and `str(int)` on `seq<char>`, with their lemmas |
| `values.dfy` | `SectionValues` | the JSON value tree (`Text`, `List`, `Record` with insertion-ordered fields) and Python's truthiness, `.get`, `or`, iteration and `str` on it |
| `escape.dfy` | `LatexEscape` | `_escape_latex` |
| `renderer.dfy` | `StructureRenderer` | `_render_section_dynamically`, `_render_structured_list` |
| `builders.dfy` | `SectionBuilders` | `_map_json_to_template_vars` and the `_build_*_section` builders |
| `composer.dfy` | `TemplateComposer` | `_preprocess_template`, `render_template`, `_render_with_custom_order` |
| `compile.dfy` | `CompileLadder` | `generate_pdf`, `_compile_online` |
| `auth.dfy` | `Auth` | `authenticate_user`, `get_or_create_oauth_user`, `register` |

Where the source builds text by appending in a loop, the model has two parts:

- a function that states the text the loop builds;
- a method with the loop that is proved to produce exactly that text.

Properties are proved about the functions. The user table is a class whose `users` sequence the OAuth and registration methods update in place. Each method is tied to a pure function of the old table, and the table invariants are proved about those functions.

## Model

| member | source | states |
|---|---|---|
| LatexEscape.Escape | app/services/latex_service.py:11-37 | `_escape_latex`: the empty text gives the empty text; the backslash rewrite runs unless the text holds a backslash and one of the four command words; the nine replacements follow in the order of the source. `EscapeIsCharMap` characterises the result |
| LatexEscape.EscapeIsCharMap | app/services/latex_service.py:16-35 | escaping is a per-character map; every backslash is kept exactly when the text holds one of `\textbf`, `\href`, `\emph`, `\textit`, and otherwise becomes `\textbackslash\{\}` |
| LatexEscape.EscapeOfChar | app/services/latex_service.py:23-35 | the replacement chain on one character gives that character's fixed escape |
| LatexEscape.SpecialsOfBackslashWord | app/services/latex_service.py:24 | because braces are escaped after the backslash rewrite, `\textbackslash{}` ends as `\textbackslash\{\}` |
| LatexEscape.BackslashOf | app/services/latex_service.py:23 | a text holding one of the command words holds a backslash, so the first test of line 23 is implied by the second |
| LatexEscape.EscapeEmpty | app/services/latex_service.py:16-17 | the empty text escapes to the empty text |
| LatexEscape.EscapeClean | app/services/latex_service.py:16-35 | text with none of the ten special characters is returned unchanged, so escaping it again is a no-op |
| LatexEscape.EscapeConcat | app/services/latex_service.py:26-35 | on backslash-free text escaping distributes over concatenation |
| SectionValues.Lookup | app/services/latex_service.py:198 | a key lookup finds the first field with that key, and none exactly when no field has it |
| SectionValues.Keys | app/services/latex_service.py:198 | the key set of a record holds exactly the keys a lookup finds |
| SectionValues.GetOr | app/services/latex_service.py:208 | `.get(key, default)` is the stored value when the key is present and the default otherwise |
| SectionValues.OrElse | app/services/latex_service.py:208 | `a or b` is `a` when it is present and truthy, `b` otherwise |
| SectionValues.Iter | app/services/latex_service.py:81 | iteration visits a list's elements, one text per character of a string, one key per field of a record |
| StructureRenderer.Classify | app/services/latex_service.py:204-308 | the five layouts in priority order: each layout is chosen exactly when its key test holds and no earlier one does |
| StructureRenderer.LayoutFromFirstKeys | app/services/latex_service.py:196-198 | the layout and the rendered list depend on the first item's key set only, never on the section name |
| StructureRenderer.SeparatedIsJoin | app/services/latex_service.py:231-263 | entries with a separator after every one but the last are the entries joined by the separator |
| StructureRenderer.ProjectSeparators | app/services/latex_service.py:229-266 | the project layout is its entries joined by `\vspace{-16pt}` lines: one between each consecutive pair, none after the last |
| StructureRenderer.SectionLatex | app/services/latex_service.py:133-186 | a rendered section is empty exactly for an empty list; every other value gives the header followed by its body |
| StructureRenderer.EscapeAll | app/services/latex_service.py:171 | each list element is escaped after `str` |
| StructureRenderer.InstitutionEntry | app/services/latex_service.py:207-224 | an education or experience entry starts with its two heading lines, and is exactly those lines unless the first truthy of `details`, `responsibilities`, `description` is a list, which then gives a bullet block |
| StructureRenderer.TextDetailsSuppressBullets | app/services/latex_service.py:218-219 | a non-empty string under `details` wins the `or` chain and, not being a list, leaves the entry without bullets even when `responsibilities` is a list |
| StructureRenderer.ResponsibilitiesFallback | app/services/latex_service.py:218-224 | with `details` absent or empty, a non-empty `responsibilities` list gives the bullet block, one bullet per element |
| StructureRenderer.ProjectTitle | app/services/latex_service.py:232-241 | with a non-blank url the title starts with the escaped name linked to the url as given, and ends with the technology part; without one it starts with the bold escaped name, ends with the technology part when there are technologies, and is the bold name alone when there are none |
| StructureRenderer.ProjectBullets | app/services/latex_service.py:246-259 | a project's bullets are empty exactly when the description is falsy or neither a list nor a string |
| StructureRenderer.ProjectTextDescription | app/services/latex_service.py:249-259 | a string description renders as the one-element list holding it |
| StructureRenderer.ProjectEntry | app/services/latex_service.py:243-259 | a project entry starts with its heading and title lines, and is exactly those lines unless the description is a non-empty list or string |
| StructureRenderer.CertificationEntry | app/services/latex_service.py:272-280 | the escaped name is linked to the url exactly when the url is non-blank; the line always ends with the escaped issuer and date |
| StructureRenderer.LeadershipEntry | app/services/latex_service.py:289-304 | a leadership entry starts with its two heading lines, and is exactly those lines unless the description is a non-empty list |
| StructureRenderer.PairTexts | app/services/latex_service.py:323 | every truthy field gives its `key: value` text, every text comes from a truthy field, and there are at most as many texts as fields |
| StructureRenderer.PairTextsAppend | app/services/latex_service.py:323 | the `key: value` texts keep the order of the fields |
| StructureRenderer.GenericEntry | app/services/latex_service.py:312-325 | a named item starts with its bold escaped name, an unnamed one with `\item `, and each entry ends its line |
| StructureRenderer.OtherFieldsEmpty | app/services/latex_service.py:316-319 | the name field and falsy fields add nothing after the name |
| StructureRenderer.GenericNameOnly | app/services/latex_service.py:312-320 | a named item whose other fields are all falsy renders as its bold name alone |
| StructureRenderer.InstitutionList | app/services/latex_service.py:204-227 | the institution layout: the list opening, the entries in order, the list closing and a `-16pt` spacing line |
| StructureRenderer.ProjectList | app/services/latex_service.py:229-266 | the project layout: the list opening, the entries separated by spacing lines, the list closing (see `ProjectSeparators`) |
| StructureRenderer.CertificationList | app/services/latex_service.py:268-284 | the certification layout: the itemize opening, the certification lines, the closing and a spacing line |
| StructureRenderer.LeadershipList | app/services/latex_service.py:286-306 | the leadership layout: the list opening, the entries in order and the list closing |
| StructureRenderer.GenericList | app/services/latex_service.py:307-328 | the generic layout: an itemize of the generic entries and a `-8pt` spacing line |
| StructureRenderer.LayoutList | app/services/latex_service.py:204-328 | each of the five layouts applied to the whole list |
| StructureRenderer.StructuredList | app/services/latex_service.py:189-329 | `_render_structured_list`: empty for an empty list, otherwise the whole list in the layout `Classify` picks from the first item's keys |
| StructureRenderer.FirstItemChoosesLayout | app/services/latex_service.py:197-199 | every item is rendered in the layout the first item's keys choose, whatever keys the later items have |
| StructureRenderer.SectionTitle | app/services/latex_service.py:134 | underscores become spaces, then title case |
| StructureRenderer.SectionHeader | app/services/latex_service.py:133-136 | the comment banner with the upper-cased title, then the `\section` line |
| StructureRenderer.SectionBody | app/services/latex_service.py:138-185 | the body by the shape of the value: an escaped paragraph for a string, nothing for an empty list, the structured layout for a list starting with a record, the string bullets for any other list, the category lines for a record with `categories`, the key/value lines for any other record |
| StructureRenderer.ConcatLoop | app/services/latex_service.py:206-224 | the append loop builds the fold of the entry texts |
| StructureRenderer.ConcatFieldsLoop | app/services/latex_service.py:316-319 | the append loop over a record's fields builds the fold of their texts |
| StructureRenderer.RenderInstitutionEntry | app/services/latex_service.py:207-224 | appends the heading lines, then the bullets one by one, and builds `InstitutionEntry` |
| StructureRenderer.RenderProjectEntry | app/services/latex_service.py:243-259 | appends the heading lines, then the list or single-string bullets, and builds `ProjectEntry` |
| StructureRenderer.RenderLeadershipEntry | app/services/latex_service.py:293-304 | appends the heading lines, then the bullets one by one, and builds `LeadershipEntry` |
| StructureRenderer.RenderGenericEntry | app/services/latex_service.py:312-325 | appends the name and then the other fields in a loop, or the joined pairs, and builds `GenericEntry` |
| StructureRenderer.RenderInstitutionList | app/services/latex_service.py:204-227 | the institution layout loop builds `InstitutionList` |
| StructureRenderer.RenderProjectList | app/services/latex_service.py:229-266 | the project layout loop, with its `idx < len(items) - 1` test, builds `ProjectList` |
| StructureRenderer.RenderCertificationList | app/services/latex_service.py:268-284 | the certification layout loop builds `CertificationList` |
| StructureRenderer.RenderLeadershipList | app/services/latex_service.py:286-306 | the leadership layout loop builds `LeadershipList` |
| StructureRenderer.RenderGenericList | app/services/latex_service.py:307-328 | the generic layout loop builds `GenericList` |
| StructureRenderer.RenderStructuredList | app/services/latex_service.py:189-329 | the if-chain of key tests renders the layout `Classify` picks |
| StructureRenderer.RenderStringList | app/services/latex_service.py:155-161 | the bullet list of a list of strings; non-string items are skipped |
| StructureRenderer.RenderCategoryList | app/services/latex_service.py:166-175 | the categories layout, with names unescaped and items escaped |
| StructureRenderer.RenderPairList | app/services/latex_service.py:178-184 | the key/value layout of a record without `categories` |
| StructureRenderer.RenderSection | app/services/latex_service.py:124-186 | `_render_section_dynamically` builds `SectionLatex` |
| SectionBuilders.EscapeValues | app/services/latex_service.py:521 | each technology is escaped |
| SectionBuilders.SubheadingEntry | app/services/latex_service.py:466-482 | a fixed-template education or experience entry starts with its two heading lines, and is exactly those lines unless the bullets key is present and truthy |
| SectionBuilders.EducationEntry | app/services/latex_service.py:466-482 | the education entry reads `institution`, `degree` and `details` |
| SectionBuilders.ExperienceEntry | app/services/latex_service.py:490-506 | the experience entry reads `company`, `position` and `responsibilities` |
| SectionBuilders.FixedEducationReadsDetailsOnly | app/services/latex_service.py:477 | without `details` a fixed-template education entry has no bullets, whatever `responsibilities` or `description` hold |
| SectionBuilders.EducationSection | app/services/latex_service.py:463-484 | the education entries concatenated in order |
| SectionBuilders.ExperienceSection | app/services/latex_service.py:487-508 | the experience entries concatenated in order |
| SectionBuilders.FixedProjectHeading | app/services/latex_service.py:515-529 | the escaped name is linked to the url as given exactly when the url is non-blank, and the heading always ends with the technology part, empty or not, and the date |
| SectionBuilders.FixedProjectItems | app/services/latex_service.py:532-537 | a project's bullets are empty exactly when `description` is absent or falsy |
| SectionBuilders.FixedProjectEntry | app/services/latex_service.py:515-537 | the heading lines followed by the bullets, with no spacing line |
| SectionBuilders.EmptyTechnologiesKeptInFixedTemplate | app/services/latex_service.py:521-526 | without url and technologies the structure renderer's title is the bold name alone, while the fixed template still ends with an empty technology part |
| SectionBuilders.ProjectsSection | app/services/latex_service.py:511-542 | the project entries concatenated in order |
| SectionBuilders.SkillLine | app/services/latex_service.py:551-554 | one skills line: the category name and its items joined by commas, neither escaped |
| SectionBuilders.SkillsSection | app/services/latex_service.py:545-556 | the skill lines joined by newlines, or empty without `categories` |
| SectionBuilders.CategoryNamesUnescaped | app/services/latex_service.py:551-554 | a category name `R&D` reaches the line with its bare `&`, in the skills builder and in the structure renderer (line 172) |
| SectionBuilders.CertificationLine | app/services/latex_service.py:568-577 | the raw name is linked to the url whenever the url is truthy, blank or not; the line always ends with the raw issuer and date |
| SectionBuilders.BlankUrlLinksOnlyInFixedTemplate | app/services/latex_service.py:574-577 | a blank url makes a link in the fixed certification line but not in the structure renderer's, which strips it first (line 277) |
| SectionBuilders.CertificationsSection | app/services/latex_service.py:559-583 | empty for a falsy list, otherwise the section line, the itemize opening, the certification lines and the closing |
| SectionBuilders.FixedLeadershipEntry | app/services/latex_service.py:594-607 | a fixed-template leadership entry starts with its two raw heading lines, and is exactly those lines unless `description` is present and truthy |
| SectionBuilders.LeadershipSection | app/services/latex_service.py:586-611 | empty for a falsy list, otherwise the section line and the leadership entries in a list |
| SectionBuilders.HeadingVars | app/services/latex_service.py:385-416 | the nine heading values, set only when the data has `heading`, taken as given; the LinkedIn and GitHub pairs are empty when their key is absent |
| SectionBuilders.SectionVars | app/services/latex_service.py:419-458 | the six section texts, in order |
| SectionBuilders.TemplateVars | app/services/latex_service.py:377-460 | the heading values followed by the section texts |
| SectionBuilders.MainSectionVars | app/services/latex_service.py:419-444 | the education, experience, projects and skills texts are empty when their key is absent, and otherwise hold the section built from the value, empty or not |
| SectionBuilders.Strs | app/services/latex_service.py:553 | skill items are joined as given, unescaped |
| SectionBuilders.SkillLines | app/services/latex_service.py:550-554 | one skills line per category, in order |
| SectionBuilders.Names | app/services/latex_service.py:60 | the variable names of the table, in insertion order |
| SectionBuilders.TemplateVarNames | app/services/latex_service.py:377-460 | the table holds the nine heading variables exactly when the data has `heading`, then always the six section variables, in this order |
| SectionBuilders.OptionalSectionsNonEmpty | app/services/latex_service.py:559-611 | a non-empty certification or leadership list never gives an empty section |
| SectionBuilders.OptionalSectionVars | app/services/latex_service.py:447-458 | `CERTIFICATIONS_SECTION` and `LEADERSHIP_SECTION` are empty exactly when their key is absent or their value is empty |
| SectionBuilders.ConcatAppend | app/services/latex_service.py:466-482 | a concatenated entry list renders as the concatenation of the two renderings |
| SectionBuilders.SectionsSplit | app/services/latex_service.py:463-542 | the education, experience and project sections split over list concatenation, so nothing is placed between projects |
| SectionBuilders.BuildSubheadingEntry | app/services/latex_service.py:466-482 | appends the heading lines, then the bullets one by one, and builds `SubheadingEntry` |
| SectionBuilders.BuildEducationSection | app/services/latex_service.py:463-484 | `_build_education_section` builds `EducationSection` |
| SectionBuilders.BuildExperienceSection | app/services/latex_service.py:487-508 | `_build_experience_section` builds `ExperienceSection` |
| SectionBuilders.BuildProjectEntry | app/services/latex_service.py:515-537 | appends the heading lines, then the bullets one by one, and builds `FixedProjectEntry` |
| SectionBuilders.BuildProjectsSection | app/services/latex_service.py:511-542 | `_build_projects_section` builds `ProjectsSection` |
| SectionBuilders.CollectSkillLines | app/services/latex_service.py:549-554 | the category loop collects one line per category, in order (`SkillLines`) |
| SectionBuilders.BuildSkillsSection | app/services/latex_service.py:545-556 | `_build_skills_section` builds `SkillsSection` |
| SectionBuilders.BuildCertificationsSection | app/services/latex_service.py:559-583 | `_build_certifications_section` builds `CertificationsSection`, with fields unescaped |
| SectionBuilders.BuildLeadershipEntry | app/services/latex_service.py:594-607 | appends the raw heading lines, then the bullets one by one, and builds `FixedLeadershipEntry` |
| SectionBuilders.BuildLeadershipSection | app/services/latex_service.py:586-611 | `_build_leadership_section` builds `LeadershipSection` |
| SectionBuilders.BuildHeadingVars | app/services/latex_service.py:385-416 | the heading variables, set only when the data has `heading` |
| SectionBuilders.BuildEducationText | app/services/latex_service.py:419-423 | the education text: the built section when the key is present, else empty |
| SectionBuilders.BuildExperienceText | app/services/latex_service.py:426-430 | the experience text: the built section when the key is present, else empty |
| SectionBuilders.BuildProjectsText | app/services/latex_service.py:433-437 | the projects text: the built section when the key is present, else empty |
| SectionBuilders.BuildSkillsText | app/services/latex_service.py:440-444 | the skills text: the built section when the key is present, else empty |
| SectionBuilders.BuildCertificationsText | app/services/latex_service.py:447-451 | the certifications text: the built section when the key is present and truthy, else empty |
| SectionBuilders.BuildLeadershipText | app/services/latex_service.py:454-458 | the leadership text: the built section when the key is present and truthy, else empty |
| SectionBuilders.BuildSectionVars | app/services/latex_service.py:419-458 | the six section variables |
| SectionBuilders.MapJsonToTemplateVars | app/services/latex_service.py:377-460 | `_map_json_to_template_vars` builds `TemplateVars` |
| TemplateComposer.CommentGlyph | app/services/latex_service.py:339-342 | every `\input{glyphtounicode}` is commented out |
| TemplateComposer.StandardizeVspace | app/services/latex_service.py:351 | every `\vspace{-15pt}` becomes `\vspace{-16pt}` |
| TemplateComposer.EnsureRaggedright | app/services/latex_service.py:354-355 | `\raggedright` is added after each `\raggedbottom` unless the template already has it |
| TemplateComposer.Preprocess | app/services/latex_service.py:332-374 | `_preprocess_template`: the nine literal replacements in the order of the source |
| TemplateComposer.StandardizeRemoves | app/services/latex_service.py:351 | no `\vspace{-15pt}` is left after the spacing step |
| TemplateComposer.RaggedrightOnce | app/services/latex_service.py:354-355 | a template that has `\raggedright` is left alone; one that has `\raggedbottom` ends up with `\raggedright` |
| TemplateComposer.GlyphNotIdempotent | app/services/latex_service.py:339-342 | the glyph step's replacement holds its own search text, so applying that step twice differs from applying it once |
| TemplateComposer.Placeholder | app/services/latex_service.py:61 | the placeholder of a name is that name in double braces |
| TemplateComposer.FixedMode | app/services/latex_service.py:57-62 | fixed mode: each variable's placeholder replaced by its `str`, in insertion order |
| TemplateComposer.FixedModeWithoutPlaceholders | app/services/latex_service.py:60-62 | fixed mode returns a template with no `{{` unchanged, whatever the variables |
| TemplateComposer.FindFrom | app/services/latex_service.py:106 | the first occurrence of a text at or after an index, or none |
| TemplateComposer.FindFromFirst | app/services/latex_service.py:106 | the first occurrence is what the search finds |
| TemplateComposer.Splice | app/services/latex_service.py:106-119 | `re.sub` of the lazy span from a marker up to the next end text, repeated after each replacement; without a marker the text is unchanged |
| TemplateComposer.SpliceBody | app/services/latex_service.py:106-119 | the splice with the education marker and `\end{document}` |
| TemplateComposer.SpliceWithoutMarker | app/services/latex_service.py:119 | a template without the education marker is left unchanged |
| TemplateComposer.SpliceAtMarker | app/services/latex_service.py:106-119 | at the marker, the span up to the first `\end{document}` is replaced and `\end{document}` is kept |
| TemplateComposer.SpliceSpan | app/services/latex_service.py:106-119 | with the first marker at `i` and the first `\end{document}` after it at `j`, exactly `s[i..j]` is replaced |
| TemplateComposer.SectionBlock | app/services/latex_service.py:81-100 | an order entry contributes nothing when it is `heading` or `section_order`, absent from the data, or empty; otherwise it contributes its rendered section and a newline |
| TemplateComposer.OrderedSections | app/services/latex_service.py:78-100 | the blocks of the section-order names, concatenated in order |
| TemplateComposer.FillHeading | app/services/latex_service.py:108-113 | the heading placeholders replaced in the given order, with `""` for absent variables |
| TemplateComposer.CustomOrder | app/services/latex_service.py:67-121 | `_render_with_custom_order`: the heading filled, then the body spliced with the ordered sections and a newline; the default order is used without `section_order` |
| TemplateComposer.RenderTemplateSpec | app/services/latex_service.py:39-64 | `render_template`: preprocessing, then dynamic mode when the data has `section_order`, else fixed mode with the template variables |
| TemplateComposer.OrderedSectionsAppend | app/services/latex_service.py:81-100 | the blocks appear in the order the names do |
| TemplateComposer.OrderedSectionsSingle | app/services/latex_service.py:81-100 | a one-name order contributes that name's block |
| TemplateComposer.EmptyOrderClearsBody | app/services/latex_service.py:49-51 | an empty `section_order` still selects dynamic mode, and the body is replaced by a single newline |
| TemplateComposer.CustomOrderSpan | app/services/latex_service.py:67-121 | dynamic mode keeps the filled template before the marker and from `\end{document}` on, and puts the ordered sections and a newline in between |
| TemplateComposer.ReplaceVariables | app/services/latex_service.py:60-62 | the placeholder loop builds `FixedMode`, replacing in insertion order |
| TemplateComposer.RenderBlock | app/services/latex_service.py:82-100 | one pass of the section-order loop builds `SectionBlock` |
| TemplateComposer.BuildOrderedSections | app/services/latex_service.py:78-100 | the section-order loop builds `OrderedSections` |
| TemplateComposer.FillHeadingLoop | app/services/latex_service.py:109-113 | the heading loop fills the nine placeholders in order, with `""` for absent ones |
| TemplateComposer.RenderWithCustomOrder | app/services/latex_service.py:67-121 | `_render_with_custom_order` builds `CustomOrder` |
| TemplateComposer.RenderTemplate | app/services/latex_service.py:39-64 | preprocessing, then dynamic mode exactly when `section_order` is a key, else fixed mode |
| CompileLadder.CompileOnline | app/services/latex_service.py:655-701 | the second service is asked only when the first did not produce the PDF; success means one did, and the message names the service that produced it; the failure message is fixed |
| CompileLadder.GeneratePdf | app/services/latex_service.py:614-652 | success exactly when an online tier succeeded, or else `pdflatex` is available and succeeded; `pdflatex` is asked only after online failure; an online success is returned unchanged; after online failure the local result decides success and whether `pdflatex` wrote the PDF; the `.tex` file is saved only when both are out, at the `.pdf`-to-`.tex` path, and success is then false |
| CompileLadder.FirstTierDecides | app/services/latex_service.py:630-634 | when the first service succeeds nothing else is asked and the other outcomes do not matter |
| CompileLadder.LocalResultReturned | app/services/latex_service.py:641-643 | with `pdflatex` available the local result is returned as it is, and a failed build never falls through to saving the source |
| CompileLadder.TexPathSwapsExtension | app/services/latex_service.py:646 | an output path `stem.pdf` whose stem holds no `.pdf` saves its source at `stem.tex` |
| CompileLadder.FallbackMessage | app/services/latex_service.py:646-652 | with no online success and no `pdflatex`, the message names the saved path or the save error, and success is false |
| CompileLadder.CompileOnlineChain | app/services/latex_service.py:661-701 | the early-return chain builds `CompileOnline` |
| CompileLadder.GeneratePdfChain | app/services/latex_service.py:630-652 | the early-return chain builds `GeneratePdf` |
| Auth.First | app/modules/auth/routes.py:20-22 | `.first()` is the first matching row, and none exactly when no row matches |
| Auth.Authenticate | app/modules/auth/routes.py:14-34 | login fails when no row has the identifier as email or username, or when the first such row has no password or the checker refuses it; otherwise that row is returned |
| Auth.Candidate | app/modules/auth/routes.py:69-74 | the candidates are the base, then the base followed by a counter |
| Auth.CandidateInjective | app/modules/auth/routes.py:74 | different counters give different candidates |
| Auth.TriedSize | app/modules/auth/routes.py:73-75 | the first `n` candidates are `n` different names |
| Auth.TriedMembers | app/modules/auth/routes.py:73-75 | the candidates tried so far are exactly those with a smaller counter |
| Auth.TriedStep | app/modules/auth/routes.py:73-75 | each passed-over candidate is one more distinct name of the table, so the loop runs at most once per row |
| Auth.Usernames | app/modules/auth/routes.py:73 | a name is in the username set exactly when a row has it |
| Auth.GenerateUsername | app/modules/auth/routes.py:68-75 | the loop ends with the first candidate nobody uses; the base is the email text before the first `@`; the result is free, extends the base, and is the base itself exactly when the base is free |
| Auth.OAuthOutcome | app/modules/auth/routes.py:36-89 | with an existing identity, that row is returned and the table is unchanged. Otherwise the row with the email gets only its provider and provider id changed. Otherwise one row is appended: no password, role `user`, and the given fields. The returned row always carries the requested identity and is the row the next lookup by identity finds |
| Auth.OAuthIdempotent | app/modules/auth/routes.py:48-54 | a second OAuth login with the same identity returns the same row and changes nothing |
| Auth.OAuthKeepsUniqueEmails | app/modules/auth/routes.py:57-88 | OAuth logins keep emails unique |
| Auth.OAuthKeepsUniqueIdentities | app/modules/auth/routes.py:57-88 | OAuth logins keep provider identities unique |
| Auth.OAuthGeneratedKeepsUniqueUsernames | app/modules/auth/routes.py:68-88 | with a generated username, OAuth logins keep usernames unique |
| Auth.SuppliedUsernameUnchecked | app/modules/auth/routes.py:68 | a supplied username is used unchecked and can duplicate an existing one |
| Auth.RegisterOutcome | app/modules/auth/routes.py:91-110 | registration is refused exactly when the email is present, leaving the table as it was; otherwise one email-provider row with role `user` is appended, whose username is the email |
| Auth.RegisterKeepsUniqueEmails | app/modules/auth/routes.py:93-107 | registration keeps emails unique |
| Auth.RegisterKeepsUniqueIdentities | app/modules/auth/routes.py:99-107 | registration keeps provider identities unique |
| Auth.RegisterThenAuthenticate | app/modules/auth/routes.py:91-110 | after a registration, logging in with that email and password returns the new row, provided no older row uses the email as its username |
| Auth.OAuthUserCannotLogIn | app/modules/auth/routes.py:28-29 | a row made by an OAuth login has no password, so a password login that reaches it fails |
| Auth.UserTable.constructor | app/modules/auth/routes.py:14 | a table holding the given rows |
| Auth.UserTable.GetOrCreateOAuthUser | app/modules/auth/routes.py:36-89 | the in-place update leaves the table and returns the row that `OAuthOutcome` gives, with the username that `ChosenUsername` allows |
| Auth.UserTable.Register | app/modules/auth/routes.py:91-110 | the in-place append leaves the table and returns the outcome that `RegisterOutcome` gives |

## Left out

- File, network and process effects are outcomes given as inputs (`Tier`, pdflatex availability, the local result, the save error):
  - `requests.post`;
  - `subprocess.run`;
  - `open`, `os.rename`, `os.remove` and `os.makedirs`.
- An exception escaping `os.makedirs` is not modelled either.
- `_compile_local` and `_is_pdflatex_available` are not modelled beyond their returned values, including the temp-file cleanup.
- All `print` diagnostics are left out.
- `str()` of a list or record is an approximation of Python's `repr`.
  - Non-string leaves (numbers, booleans, `None`) are not in the value tree.
  - Where Python would raise, the model applies `str` to the value and goes on. Examples are `", ".join` of non-string skill items, `.strip()` on a non-string url, and `.get` on a non-record item.
- `.get` on a value that is not a record returns the default, where Python would raise.
- In section orders, entries that are not strings are skipped. Python would compare them and then use them as keys.
- Case mapping for `.title()` and `.upper()` is ASCII only. Whitespace for `.strip()` is Python's full `str.isspace()` set.
- `re.sub` with its lazy pattern and lookahead is modelled as a literal search for the marker and then for the first `\end{document}` after it, repeated from that point as `re.sub` does.
- TemplateComposer.StandardizeRemoves: states the absence of `\vspace{-15pt}` right after the step at line 351 only. The later deletions at lines 371-372 could join the two halves of one, as in `\vspace{-1\setlength{\columnsep}{-1pt}5pt}`.
- TemplateComposer.GlyphNotIdempotent: shows the glyph step alone is not idempotent. It does not state that `Preprocess` as a whole is not idempotent. The eight later replacements would each have to be shown to keep the second `\input{glyphtounicode}` occurrence intact, which is not proved.
- Records are field sequences that may repeat a key. `Lookup` and `.get` take the first field with the key, while a dictionary loaded from JSON keeps the last value. The model is faithful only for records without repeated keys, which is what a Python dictionary always holds.
- TemplateComposer.FixedModeWithoutPlaceholders: fixed mode is not proved to leave no placeholder behind, because that is not true. An inserted value, or braces in the template next to a replaced value, can form a new `{{NAME}}`. The model states the replacement order and the identity on placeholder-free templates.
- The database rules are not modelled:
  - unique constraints, which would raise on a duplicate username or email;
  - row ids and timestamps;
  - `commit`, `refresh` and concurrent sessions.
- bcrypt hashing (`get_password_hash`) and checking (`verify_password`) are not modelled. A registration receives the hash, and login takes the checker as a parameter.
- JWT creation and the HTTP routes around these functions are not modelled.
