# docs-gen text rendering, modelled in Dafny

docs-gen turns the reflected description of a .NET type into documentation
text in one of four dialects: XML, YAML, HTML and Markdown. Each dialect has a
generator class. A generator's `Generate(type)` does two things:

- For a type that is not a class, enum, interface or value type, it returns
  the type's own text. For a missing type it returns the empty string.
- Otherwise it appends sections to a `StringBuilder` in a fixed order:
  - basic information;
  - inherited types;
  - constructors (not in Markdown);
  - events, fields, properties and methods.

Every member a section lists carries its documentation attributes. These are
`Summary`, `Summery`, `Returns`, `Remarks`, `Example`, `Exception` and
`Parameter`. Each attribute renders itself in the dialect of the generator
that asks, through `ToString(DocType)`. The exception attribute is rendered
as written, including its two inverted type tests (see "## Findings"). A `DocText` value renders styled text
(bold, italic, underline, trailing line break) in each dialect.
`DocGeneratorBuilder` is a registry from a document type to a generator
factory. `Build(docType)` runs the registered factory, or fails with
`Invalid DocType`.

The model follows the program's structure, one module per component:

- `Text`:
  - the string primitives the generators use: `Split`, `Join`, the "strip the
    generic arity" idiom `Name.Split('`')[0]`, `StringBuilder` as a class, and
    `AppendLine` as `Line`;
  - `Escape`, the `<`/`>` to `&lt;`/`&gt;` translation the XML and HTML
    dialects spell out by hand.
- `Wrappers`: `Option` and `Result`.
- `DocTypes`: the `DocType` enum. `Other` stands for every value that reaches
  a `default:` branch.
- `Descriptors`: what reflection reports about a type and its members, as
  plain values.
- `DocTexts`: `DocText`.
- `Attributes`: the attribute base class and the seven attributes.
- `DocGenerator`: the shared base, meaning validity, the fallback, the
  constructor filter, the generic-constraint clause and the per-member
  annotation lines.
- `XmlGenerator`, `YamlGenerator`, `HtmlGenerator`, `MarkdownGenerator`: one
  module per dialect. Each has:
  - a pure specification (`Document` and the section functions);
  - the imperative `Get*Info` methods, which append to a `StringBuilder` and
    are proved against that specification;
  - `Generate`, proved equal to `Document`;
  - lemmas about the document's shape.
- `Builder`: `DocGeneratorBuilder` as a class over a `map`.
- `DialectLaws`: cross-dialect laws.
  - The XML names are the YAML names with `<` and `>` escaped.
  - Markdown names agree with YAML names on the forms both handle alike.
  - Counterexamples pin down where the dialects differ.

## Model

| member | source | states |
|---|---|---|
| DocGenerator.VisibleConstructors | src/DocsGen/XmlGenerator.cs:40 | keeps exactly the static, public and protected constructors, in order: every kept one is visible and from the input, every visible input is kept |
| DocGenerator.VisibleConstructorsSnoc | src/DocsGen/YamlGenerator.cs:38 | appending a hidden constructor leaves the listed constructors unchanged; appending a visible one adds it at the end |
| DocGenerator.ValueTypeConstraintDropped | src/DocsGen/XmlGenerator.cs:262-263 | a `ValueType` constraint contributes nothing to the constraint text; a lone `ValueType` constraint gives the empty text |
| DocGenerator.ClauseOf | src/DocsGen/XmlGenerator.cs:265-293 | the chosen clause applies to the constraints and flags, and is the first applicable one in the source's test order (named constraints, reference type with default constructor, reference type, value type, default constructor, bare) |
| DocGenerator.MarkdownClauseOf | src/DocsGen/MarkdownGenerator.cs:275-288 | Markdown's clause is the shared clause computed with only the reference-type flag kept; it is never a value-type or default-constructor clause |
| DocGenerator.ClauseText | src/DocsGen/YamlGenerator.cs:241-275 | a bare parameter renders as its name; otherwise as `name:` followed by the clause's tokens joined by commas |
| DocGenerator.NamedConstraintsWin | src/DocsGen/XmlGenerator.cs:265-293 | when the constraint text is non-empty, the attribute flags have no effect and the clause is that text |
| DocGenerator.DocLinesAppend | src/DocsGen/XmlGenerator.cs:50-53 | the annotation lines of two attribute lists in sequence are the lines of the first followed by the lines of the second |
| DocGenerator.AppendDocs | src/DocsGen/YamlGenerator.cs:48-52 | the loop appends one line per attribute, each rendered in the dialect with the given indentation, in order |
| DocTexts.FromTextRendersAsText | src/DocsGen/Core/DocText.cs:13-16 | a `DocText` made from plain text prints exactly that text, followed by a line break only in YAML and the dialects without a case |
| DocTexts.MarkdownTagsNest | src/DocsGen/Core/DocText.cs:67-73 | Markdown opening marks are underline, bold, italic; the closing marks are the same tokens closed in reverse order around the text |
| DocTexts.XmlTagsNest | src/DocsGen/Core/DocText.cs:76-83 | XML opening tags are `<u>`, `<b>`, `<i>`; the closing tags close the same tags in reverse order, so the tags nest |
| DocTexts.UnstyledIsText | src/DocsGen/Core/DocText.cs:35-55 | text without style renders as itself in XML, Markdown and HTML, plus a line break exactly when `Line` is set |
| DocTexts.LineAddsOneBreak | src/DocsGen/Core/DocText.cs:35-55 | in XML, Markdown and HTML the rendering is the styled text, followed by one line break exactly when `Line` is set |
| DocTexts.YamlIgnoresStyling | src/DocsGen/Core/DocText.cs:47-58 | YAML and every other document type ignore the styles and always end the text with a line break |
| DocTexts.HtmlIsXml | src/DocsGen/Core/DocText.cs:50-55 | HTML renders styled text exactly as XML does |
| Attributes.MessageIsPlainText | src/DocsGen/Core/DocsGenAttribute.cs:11-21 | the plain text of a message-only attribute is its stored message, so a null message prints as nothing |
| Attributes.NullArgumentsReadAsEmpty | src/DocsGen/Core/RemarksAttribute.cs:11-14 | every attribute constructor treats a null message, name, type, code or paragraph array exactly as the empty one |
| Attributes.MessageAllTrim | src/DocsGen/Core/SummaryAttribute.cs:27 | the YAML summary text has no line-break character, is no longer than the message, and equals the message when it had none |
| Attributes.ParagraphsSnoc | src/DocsGen/Core/RemarksAttribute.cs:24-32 | the paragraphs of a list extended by one are the old paragraphs followed by the new one |
| Attributes.AppendParagraphs | src/DocsGen/Core/RemarksAttribute.cs:24-32 | the paragraph loop appends the rendering of each non-empty paragraph, in order |
| Attributes.RemarksXml | src/DocsGen/Core/RemarksAttribute.cs:21-34 | the XML case builds the remarks block the specification function gives |
| Attributes.RemarksMarkdown | src/DocsGen/Core/RemarksAttribute.cs:35-47 | the Markdown case builds the remarks block the specification function gives |
| Attributes.RemarksYaml | src/DocsGen/Core/RemarksAttribute.cs:48-57 | the YAML case builds the remarks block the specification function gives |
| Attributes.RemarksHtml | src/DocsGen/Core/RemarksAttribute.cs:58-72 | the HTML case builds the remarks card the specification function gives |
| Attributes.RemarksToPlain | src/DocsGen/Core/RemarksAttribute.cs:81-94 | the plain rendering is the message, a blank line, then each non-empty paragraph on its own line |
| Attributes.RemarksToString | src/DocsGen/Core/RemarksAttribute.cs:16-79 | `ToString(doc)` of a remarks attribute dispatches on the dialect and agrees with the shared rendering function |
| Attributes.PlainTextIsMessage | src/DocsGen/Core/DocsGenAttribute.cs:18-21 | summary, summery and returns attributes print as their message |
| Attributes.FallsBackToPlainText | src/DocsGen/Core/SummeryAttribute.cs:29-30 | every attribute renders an unknown document type as its plain `ToString()`; summery, returns, exception and parameter do so for HTML too |
| Attributes.IndentOnlyInYamlSummary | src/DocsGen/Core/SummaryAttribute.cs:26-28 | the indentation a generator sets changes nothing except the YAML rendering of a summary |
| Attributes.XmlBlockBalanced | src/DocsGen/Core/ReturnsAttribute.cs:17-21 | the XML rendering of summary, summery, remarks, example and returns opens with its tag line and ends with the matching closing tag line |
| Attributes.HtmlCardBalanced | src/DocsGen/Core/SummaryAttribute.cs:29-34 | the HTML rendering of summary, remarks and example opens `<summary>` with its `<h5>` heading and ends with `</summary>` |
| Attributes.YamlSummaryIsOneLine | src/DocsGen/Core/SummaryAttribute.cs:27 | the YAML summary is exactly one line, `indent + summary: "…"`, holding the trimmed message |
| Attributes.ParagraphsSkipEmpty | src/DocsGen/Core/RemarksAttribute.cs:26 | the paragraph rendering equals the rendering of the non-empty paragraphs alone |
| Attributes.RemarksIgnoresEmptyParagraphs | src/DocsGen/Core/RemarksAttribute.cs:16-94 | in every dialect, empty paragraphs do not change a remarks attribute's rendering |
| Attributes.YamlParagraphsAreBullets | src/DocsGen/Core/RemarksAttribute.cs:50-56 | non-empty YAML paragraphs are one `- ` bullet line each |
| Attributes.YamlRemarksLines | src/DocsGen/Core/RemarksAttribute.cs:48-57 | YAML remarks split into lines are `remarks: message`, then one bullet per non-empty paragraph |
| Attributes.YamlRemarksAreLines | src/DocsGen/Core/RemarksAttribute.cs:48-57 | the YAML remarks block is the line list `remarks: message` followed by the bullets |
| Attributes.YamlExampleTwoLines | src/DocsGen/Core/ExampleAttribute.cs:34-37 | a YAML example is two lines, `example: message` and `- code: code` |
| Attributes.YamlParameterThreeLines | src/DocsGen/Core/ParameterAttribute.cs:28-32 | a YAML parameter is three lines: name, type, message |
| Attributes.YamlExceptionTypeLine | src/DocsGen/Core/ExceptionAttribute.cs:26-30 | the corrected YAML exception has a `- type:` line exactly when the type is known |
| Attributes.YamlExceptionAsWrittenDropsType | src/DocsGen/Core/ExceptionAttribute.cs:28-29 | as written, a known exception type is never emitted in YAML, though the corrected form emits it |
| Attributes.ExceptionPlainTypeLine | src/DocsGen/Core/ExceptionAttribute.cs:39-45 | corrected: a known type prefixes the message as `type:`; an unknown one leaves the bare message |
| Attributes.ExceptionPlainAsWrittenInverted | src/DocsGen/Core/ExceptionAttribute.cs:42 | as written, a known type is dropped and an unknown one adds a bare `:` line; either way the text differs from the corrected one |
| Attributes.ExceptionRendersAsWritten | src/DocsGen/Core/ExceptionAttribute.cs:26-44 | what the YAML and HTML documents print for an exception: in YAML an empty `- type:` line after `exception:` exactly when no type is known; in HTML the plain text, whose `:` line likewise appears only without a type |
| Attributes.ExceptionCrefIff | src/DocsGen/Core/ExceptionAttribute.cs:21 | the XML exception carries `cref = "type"` if and only if the type is non-empty |
| Attributes.ExceptionMarkdownTypeIff | src/DocsGen/Core/ExceptionAttribute.cs:24 | the Markdown exception shows the type in backticks if and only if it is non-empty |
| Attributes.ParameterNameIff | src/DocsGen/Core/ParameterAttribute.cs:23 | the XML parameter carries `name = "…"` if and only if the name is non-empty |
| Attributes.ParameterCrefIff | src/DocsGen/Core/ParameterAttribute.cs:23 | the XML parameter carries `cref = "…"` if and only if the type name is non-empty |
| XmlGenerator.ParamTypeText | src/DocsGen/XmlGenerator.cs:321-340 | a generic parameter type uses the generic name; a plain type loses its arity suffix |
| XmlGenerator.ParamName | src/DocsGen/XmlGenerator.cs:319-341 | a parameter renders as its type text, a space, then its name without arity suffix |
| XmlGenerator.ReturnTypeText | src/DocsGen/XmlGenerator.cs:66-86 | a generic return type uses the generic name; a plain return type keeps its full reflected name |
| XmlGenerator.TypeTitle | src/DocsGen/XmlGenerator.cs:244-257 | a generic type is titled by its generic name, any other by its reflected name |
| XmlGenerator.GetConstructorsInfo | src/DocsGen/XmlGenerator.cs:38-58 | appends exactly the constructors section |
| XmlGenerator.GetMethodsInfo | src/DocsGen/XmlGenerator.cs:59-120 | appends exactly the methods section |
| XmlGenerator.GetPropertiesInfo | src/DocsGen/XmlGenerator.cs:121-148 | appends exactly the properties section |
| XmlGenerator.GetFieldsInfo | src/DocsGen/XmlGenerator.cs:149-176 | appends exactly the fields section |
| XmlGenerator.GetEventsInfo | src/DocsGen/XmlGenerator.cs:177-205 | appends exactly the events section |
| XmlGenerator.GetInheritedInfo | src/DocsGen/XmlGenerator.cs:206-221 | appends exactly the inherited-types section, one entry per parent |
| XmlGenerator.GetTypeInfo | src/DocsGen/XmlGenerator.cs:244-257 | appends one `type-info` line for a parent |
| XmlGenerator.GetBasicInfo | src/DocsGen/XmlGenerator.cs:222-243 | appends exactly the basic-information block |
| XmlGenerator.Generate | src/DocsGen/XmlGenerator.cs:14-36 | returns the fallback for an invalid type, and otherwise the XML document specification |
| XmlGenerator.DocumentFraming | src/DocsGen/XmlGenerator.cs:19-34 | a valid type's document starts with `<doc>` and the basic information, and ends with `</doc>` |
| XmlGenerator.HiddenConstructorIgnored | src/DocsGen/XmlGenerator.cs:40 | adding a private or internal constructor leaves the whole document unchanged |
| XmlGenerator.VisibleConstructorAppended | src/DocsGen/XmlGenerator.cs:40-56 | adding a visible constructor appends its block at the end of the constructors section |
| XmlGenerator.MethodAppended | src/DocsGen/XmlGenerator.cs:59-120 | adding a method appends its block at the end of the methods section |
| XmlGenerator.SectionEmptyIff | src/DocsGen/XmlGenerator.cs:41 | a section is empty if and only if it has no items |
| XmlGenerator.MemberAnnotationsInOrder | src/DocsGen/XmlGenerator.cs:48-54 | a member block lists its attributes in declaration order between its declaration and `</member>` |
| YamlGenerator.ParamTypeText | src/DocsGen/YamlGenerator.cs:301-320 | a generic parameter type uses the generic name; a plain type loses its arity suffix |
| YamlGenerator.ParamName | src/DocsGen/YamlGenerator.cs:299-321 | a parameter renders as its type text, a space, then its name without arity suffix |
| YamlGenerator.ReturnTypeText | src/DocsGen/YamlGenerator.cs:64-84 | a generic return type uses the generic name; a plain return type keeps its full reflected name |
| YamlGenerator.TypeTitle | src/DocsGen/YamlGenerator.cs:225-238 | a generic type is titled by its generic name, any other by its reflected name |
| YamlGenerator.GetConstructorsInfo | src/DocsGen/YamlGenerator.cs:36-55 | appends exactly the constructors section |
| YamlGenerator.GetMethodsInfo | src/DocsGen/YamlGenerator.cs:56-110 | appends exactly the methods section |
| YamlGenerator.GetPropertiesInfo | src/DocsGen/YamlGenerator.cs:111-139 | appends exactly the properties section |
| YamlGenerator.GetFieldsInfo | src/DocsGen/YamlGenerator.cs:140-168 | appends exactly the fields section |
| YamlGenerator.GetEventsInfo | src/DocsGen/YamlGenerator.cs:169-197 | appends exactly the events section |
| YamlGenerator.GetInheritedInfo | src/DocsGen/YamlGenerator.cs:198-210 | appends exactly the inherited-types section |
| YamlGenerator.AppendParents | src/DocsGen/YamlGenerator.cs:204-207 | the parent loop appends one type line per parent, in order |
| YamlGenerator.GetTypeInfo | src/DocsGen/YamlGenerator.cs:225-238 | appends one `name:` line for a type, with the given separator |
| YamlGenerator.GetBasicInfo | src/DocsGen/YamlGenerator.cs:211-224 | appends exactly the basic-information block, the type's attributes indented by two spaces |
| YamlGenerator.Generate | src/DocsGen/YamlGenerator.cs:13-34 | returns the fallback for an invalid type, and otherwise the YAML document specification |
| YamlGenerator.DocumentStartsWithTypeInfo | src/DocsGen/YamlGenerator.cs:211-216 | a valid type's document starts with `---`, `type-info:` and the type's name line |
| YamlGenerator.HiddenConstructorIgnored | src/DocsGen/YamlGenerator.cs:38 | adding a private or internal constructor leaves the whole document unchanged |
| YamlGenerator.VisibleConstructorAppended | src/DocsGen/YamlGenerator.cs:38-53 | adding a visible constructor appends its item at the end of the constructors section |
| YamlGenerator.MethodAppended | src/DocsGen/YamlGenerator.cs:56-110 | adding a method appends its item at the end of the methods section |
| YamlGenerator.SectionEmptyIff | src/DocsGen/YamlGenerator.cs:39 | a section is empty if and only if it has no items |
| YamlGenerator.ItemAnnotationsInOrder | src/DocsGen/YamlGenerator.cs:44-52 | an item lists its attributes in declaration order after its declaration, indented by four spaces |
| HtmlGenerator.StrongTokens | src/DocsGen/HtmlGenerator.cs:489-523 | clause tokens are each wrapped in `<strong>` and joined by commas |
| HtmlGenerator.ClauseHtml | src/DocsGen/HtmlGenerator.cs:489-523 | a bare generic parameter renders as its name; a constrained one renders as a `<span>` with the name and the strong tokens |
| HtmlGenerator.ParamName | src/DocsGen/HtmlGenerator.cs:547-569 | a parameter's markup ends with its name without arity suffix inside `<label>`, closing the span |
| HtmlGenerator.ReturnTypeText | src/DocsGen/HtmlGenerator.cs:265-285 | a plain return type keeps its full reflected name |
| HtmlGenerator.SectionShape | src/DocsGen/HtmlGenerator.cs:231-252 | a member section is left out if and only if it has no items; a present one opens with the `<div>` heading and rule and ends with `</div>` |
| HtmlGenerator.InheritedShape | src/DocsGen/HtmlGenerator.cs:424-444 | the inheritance card is left out if and only if there are no parents; a present one opens with its heading and list and ends by closing the list and both `<div>`s |
| HtmlGenerator.GetConstructorsInfo | src/DocsGen/HtmlGenerator.cs:228-254 | appends exactly the constructors section |
| HtmlGenerator.GetMethodsInfo | src/DocsGen/HtmlGenerator.cs:255-320 | appends exactly the methods section |
| HtmlGenerator.GetPropertiesInfo | src/DocsGen/HtmlGenerator.cs:321-354 | appends exactly the properties section |
| HtmlGenerator.GetFieldsInfo | src/DocsGen/HtmlGenerator.cs:355-389 | appends exactly the fields section |
| HtmlGenerator.GetEventsInfo | src/DocsGen/HtmlGenerator.cs:390-423 | appends exactly the events section, including the event heading as written at line 409 |
| HtmlGenerator.GetInheritedInfo | src/DocsGen/HtmlGenerator.cs:424-444 | appends exactly the inherited-types section |
| HtmlGenerator.GetTypeInfo | src/DocsGen/HtmlGenerator.cs:473-486 | appends one span line for a type |
| HtmlGenerator.GetBasicInfo | src/DocsGen/HtmlGenerator.cs:445-472 | appends exactly the basic-information block |
| HtmlGenerator.AppendPreamble | src/DocsGen/HtmlGenerator.cs:199-208 | appends the page head: doctype, title, font link, style, and the opening of the body |
| HtmlGenerator.Generate | src/DocsGen/HtmlGenerator.cs:194-226 | returns the fallback for an invalid type, and otherwise the HTML page specification |
| HtmlGenerator.AppendBody | src/DocsGen/HtmlGenerator.cs:209-221 | appends the sections in the source's order |
| HtmlGenerator.DocumentFraming | src/DocsGen/HtmlGenerator.cs:194-226 | a valid type's page starts with the page head for its name and ends with the closing tags |
| HtmlGenerator.PageStartShape | src/DocsGen/HtmlGenerator.cs:199-202 | the page head starts with `<!DOCTYPE html>` and ends with the title, the type name without arity suffix |
| HtmlGenerator.HiddenConstructorIgnored | src/DocsGen/HtmlGenerator.cs:230 | adding a private or internal constructor leaves the whole page unchanged |
| HtmlGenerator.HiddenConstructorBody | src/DocsGen/HtmlGenerator.cs:230 | adding a private or internal constructor leaves the page body unchanged |
| HtmlGenerator.VisibleConstructorAppended | src/DocsGen/HtmlGenerator.cs:230-252 | adding a visible constructor appends its card at the end of the constructors section |
| HtmlGenerator.MethodAppended | src/DocsGen/HtmlGenerator.cs:255-320 | adding a method appends its card at the end of the methods section |
| HtmlGenerator.CardAnnotationsInOrder | src/DocsGen/HtmlGenerator.cs:243-249 | a card lists its attributes in declaration order inside the card body, then closes both divs |
| MarkdownGenerator.TypeTitle | src/DocsGen/MarkdownGenerator.cs:256-269 | a generic type is titled by its generic name, any other by its reflected name |
| MarkdownGenerator.InheritedShape | src/DocsGen/MarkdownGenerator.cs:227-240 | the inherited-types section is left out if and only if there are no parents; a present one opens with its heading and a blank line and ends with the last parent's line |
| MarkdownGenerator.GetMethodsInfo | src/DocsGen/MarkdownGenerator.cs:35-107 | appends exactly the methods section |
| MarkdownGenerator.GetPropertiesInfo | src/DocsGen/MarkdownGenerator.cs:109-137 | appends exactly the properties section |
| MarkdownGenerator.GetFieldsInfo | src/DocsGen/MarkdownGenerator.cs:139-192 | appends exactly the fields section |
| MarkdownGenerator.GetEventsInfo | src/DocsGen/MarkdownGenerator.cs:194-225 | appends exactly the events section |
| MarkdownGenerator.GetInheritedInfo | src/DocsGen/MarkdownGenerator.cs:227-240 | appends exactly the inherited-types section |
| MarkdownGenerator.GetTypeInfo | src/DocsGen/MarkdownGenerator.cs:256-269 | appends one line naming a type, with the given separator |
| MarkdownGenerator.GetBasicInfo | src/DocsGen/MarkdownGenerator.cs:243-254 | appends exactly the basic-information block |
| MarkdownGenerator.Generate | src/DocsGen/MarkdownGenerator.cs:14-33 | returns the fallback for an invalid type, and otherwise the Markdown document specification |
| MarkdownGenerator.ConstructorsNotListed | src/DocsGen/MarkdownGenerator.cs:19-30 | the Markdown document does not depend on the type's constructors |
| MarkdownGenerator.DocumentStartsWithTitle | src/DocsGen/MarkdownGenerator.cs:243-254 | a valid type's document starts with its title line and a blank line |
| MarkdownGenerator.SectionShape | src/DocsGen/MarkdownGenerator.cs:39-106 | a section is empty if and only if it has no items; a non-empty one starts with its heading and a blank line and ends with a blank line |
| MarkdownGenerator.MethodAppended | src/DocsGen/MarkdownGenerator.cs:35-107 | adding a method appends its entry at the end of the methods section |
| MarkdownGenerator.EntryAnnotationsInOrder | src/DocsGen/MarkdownGenerator.cs:99-103 | an entry lists its attributes in declaration order after its heading |
| MarkdownGenerator.ParameterFlagsIgnored | src/DocsGen/MarkdownGenerator.cs:273-290 | only the reference-type flag affects a generic parameter's Markdown name; it adds `:ReferenceType` exactly when set and no constraint names exist |
| MarkdownGenerator.UnconstrainedTypeArgument | src/DocsGen/MarkdownGenerator.cs:48-53 | an unconstrained method type argument always shows `:ReferenceType`, whatever its flags |
| Builder.DocumentType | src/DocsGen/DocGenerator.cs:9 | each generator declares a real document type, never the `default:` one |
| Builder.Generator.Generate | src/DocsGen/DocGenerator.cs:11 | a built generator's `Generate` is the `Generate` of its dialect |
| Builder.DocGeneratorBuilder.constructor | src/DocsGen/DocGeneratorBuilder.cs:8 | a new builder has an empty registry |
| Builder.DocGeneratorBuilder.Register | src/DocsGen/DocGeneratorBuilder.cs:10-14 | the key now maps to the given kind, every other key is unchanged, and the builder itself is returned |
| Builder.DocGeneratorBuilder.Build | src/DocsGen/DocGeneratorBuilder.cs:15-23 | a fresh generator of the registered kind if the key is registered; the `Invalid DocType` failure if and only if it is not |
| Builder.RegisterThenLookup | src/DocsGen/DocGeneratorBuilder.cs:10-19 | after registering a key, building it finds the kind just registered |
| Builder.RegisterKeepsOthers | src/DocsGen/DocGeneratorBuilder.cs:10-19 | registering one key does not change what any other key builds |
| Builder.LastRegistrationWins | src/DocsGen/DocGeneratorBuilder.cs:12 | of two registrations of one key, the later replaces the earlier |
| Builder.Standard | src/DocsGen/DocGeneratorBuilder.cs:10-23 | registering each generator under its own document type makes every generator buildable, and `Other` not |
| Builder.InvalidTypeFallsBack | src/DocsGen/DocGenerator.cs:12-17 | every generator answers an invalid type with its fallback text, and a missing type with the empty string |
| Builder.StandardBuilder | src/DocsGen/DocGeneratorBuilder.cs:10-14 | chained `Register` calls on one builder yield the standard registry |
| DialectLaws.XmlNameIsEscapedYamlName | src/DocsGen/XmlGenerator.cs:258-318 | for names without angle brackets, the XML generic name of every type is the YAML generic name with `<` and `>` escaped |
| DialectLaws.ArgsEscaped | src/DocsGen/XmlGenerator.cs:298-302 | the XML argument list is the escaped YAML argument list |
| DialectLaws.TypeTextsEscaped | src/DocsGen/XmlGenerator.cs:66-86 | the XML parameter-type and return-type texts are the escaped YAML ones |
| DialectLaws.XmlParamIsEscapedYamlParam | src/DocsGen/XmlGenerator.cs:319-341 | an XML parameter rendering is the escaped YAML one |
| DialectLaws.MethodNameIsEscaped | src/DocsGen/XmlGenerator.cs:94-98 | the XML method name is the escaped name; the `<Clone>$` special case is exactly that escape |
| DialectLaws.HtmlNameIsMarkedXmlName | src/DocsGen/HtmlGenerator.cs:487-546 | the HTML generic name of every type is the XML one with only the `<span>` and `<strong>` markup added: one definition with the markup as a parameter gives both, so the two dialects choose the same constraint clause, the same arguments in the same order, and the same array form |
| DialectLaws.MarkdownNameIsYamlName | src/DocsGen/MarkdownGenerator.cs:271-302 | on types without arrays, value-type constraints or value-type and constructor flags, Markdown and YAML give the same generic name |
| DialectLaws.MarkdownShowsValueTypeConstraint | src/DocsGen/MarkdownGenerator.cs:275 | Markdown keeps a `ValueType` constraint name that YAML drops |
| DialectLaws.MarkdownHidesValueTypeFlag | src/DocsGen/MarkdownGenerator.cs:280-284 | YAML shows the value-type flag; Markdown shows the bare name |
| DialectLaws.MarkdownHidesConstructorFlag | src/DocsGen/MarkdownGenerator.cs:280-284 | YAML shows the default-constructor flag next to the reference-type flag; Markdown shows only the reference type |
| DialectLaws.MarkdownKeepsArrayName | src/DocsGen/MarkdownGenerator.cs:301 | Markdown keeps an array type's full reflected name, while YAML strips its arity suffix |

## Left out

- Reflection (`GetAllConstructors`, `GetPublicAndProtectedInstanceAndStaticMethods`, custom-attribute lookup, the `Reflector` extension methods): what it returns is an input value (`Descriptors`). The order it reports is the order rendered.
- The `Get*AsString` declaration helpers of the `Reflector` library are not part of this model; their results are input strings.
- The namespace and assembly texts, including their fallback when absent, are input strings.
- `GenerateAsync` is left out. It only wraps `Generate` in a completed task.
- The console application (`DocsGen.App`) is left out.
- `Environment.NewLine` is fixed to `"\n"`. `AppendLine()` with no argument adds a bare line break.
- `ValueType_Type` and `Default_Constructor` are defined outside the files modelled. They are named constants without a value.
- The HTML style sheet (HtmlGenerator.cs:13) and font link (HtmlGenerator.cs:203) are also named constants without a value. Their text has no bearing on the page structure.
- Attributes.MessageAllTrim: `GetMessageAllTrim` is defined outside the files modelled; it is modelled as dropping the line-break characters, and the contract states only what that promises.
- The HTML page is modelled as written, including the `<div>` opened at HtmlGenerator.cs:222 and never closed, and the `/strong>` written for `</strong>` at HtmlGenerator.cs:409. Well-formedness of the HTML is not claimed.
- The Markdown field branch at MarkdownGenerator.cs:153-162, for a field type that is both generic and a generic parameter, cannot be reached; the model renders such a field by its generic-type branch only.
- The factory `() => new T()` that `Register<T>` stores is represented by the generator kind `T`; `Build` calls it once.
- `Build`'s `ArgumentException` is a `Failure` value.
- `DialectLaws.XmlNameIsEscapedYamlName`, `DialectLaws.XmlParamIsEscapedYamlParam`, `DialectLaws.TypeTextsEscaped` and `DialectLaws.ArgsEscaped` hold only for reflected names without `<` or `>`. Compiler-generated names can contain those characters; the XML generator then does not escape them.
- DialectLaws.MarkdownNameIsYamlName: stated only on the forms both dialects treat alike. The counterexample lemmas beside it show each form where they differ.
- HtmlGenerator.ReturnTypeText: the contract covers the plain and generic-parameter cases; the generic and array spellings are given by the function itself.
- Null strings are modelled as `""` wherever the source only interpolates, appends or tests them with `IsNullOrEmpty`; `Option` is used where the source coalesces a null (`message ?? string.Empty`, `parms ?? new string[0]`).

## Findings

Every generator renders exceptions in the as-written form. The corrected definitions, `ExceptionYaml` and `ExceptionPlain`, exist only to state what was evidently intended.

| source | as written | input that shows it | evidently intended | confidence | as-written member | corrected member |
|---|---|---|---|---|---|---|
| src/DocsGen/Core/ExceptionAttribute.cs:28 | the YAML `- type:` line is written only when `MemberType` is null or empty, so it is always `- type: ` with nothing after it | `new ExceptionAttribute("boom", "IOException")` in YAML gives only `exception: boom` | write `- type: IOException` when the type is known, as the XML and Markdown cases do | not executed | Attributes.YamlExceptionAsWrittenDropsType | Attributes.YamlExceptionTypeLine |
| src/DocsGen/Core/ExceptionAttribute.cs:42 | `ToString()` writes the `type:` prefix only when the type is null or empty, so it prints a bare `:` line | `new ExceptionAttribute("boom", "")` prints `:` then `boom`; with type `IOException` it prints only `boom` | prefix the message with `IOException:` when the type is known | not executed | Attributes.ExceptionPlainAsWrittenInverted | Attributes.ExceptionPlainTypeLine |
