# CV application, modelled in Dafny

This project models the core of a browser CV builder. A CV record is entered in a form, or generated as demo data. It is stored in the browser's local storage, and validated before it is saved. The record is rendered in three ways:
- a live preview;
- three template styles (simple, modern, tech), produced either by a simulated AI endpoint or by local templates;
- a paginated, styled PDF.

The simulated AI endpoint also comes with advisor heuristics: a completeness score, strengths and weaknesses, suggestions, recommendations and priority areas.

The record is a datatype of nine optional fields (`CvRecord.CV`). A field that is absent is `None`, which matches a key that is missing from the JavaScript object. The empty record, `CvRecord.Empty`, stands for the `{}` the code tests with `Object.keys(...).length === 0`.

Rendering is modelled on an abstract document:
- a header with a name, a title and contact lines;
- sections, each with a topic, a heading and a body of blocks;
- a layout of one column or two.

The model does not produce HTML strings. For the PDF, it produces a list of drawing commands, each placed on a page.

Objects whose fields the code updates are classes:
- `Data.DataService`: the record, its two counters, and the storage slot.
- `Classic.ClassicModule`: the entry form as a value, the counters, and the log of `cvDataUpdated` events.
- `Ai.AIModule`.
- `Pdf.PDFService`.

The loops of the code are methods with loop invariants, each proved against a specification function. Pure rendering is written as functions.

The modules follow the files:

| module | file | source |
|---|---|---|
| `JsText` | js_text.dfy | the JavaScript string built-ins the code relies on: `trim`, `split`, `join`, `length` in UTF-16 units |
| `CvRecord` | cv_record.dfy | the record and its keys |
| `CvDocument` | cv_document.dfy | the rendered document and what "a section shows the record" means |
| `Data` | data_service.dfy | data-service.js |
| `MockApi` | mock_ai_api.dfy | api/mock-ai-api.js |
| `Ai` | ai_api.dfy | ai-api.js |
| `App` | app.dfy | app.js |
| `Classic` | classic_module.dfy | classic-module.js |
| `Pdf` | pdf_service.dfy | pdf-service.js |

Some behaviours of the code that the model states explicitly:
- **Skill badges.** Skill badges never add a page: only the skills title checks the cursor, past y 220. The badge loop only wraps rows. `Pdf.LayoutBadges` states this: its page count is the same before and after.
- **The tech style.** The tech style serves two cases:
  - Locally, it adds six default skills when the record has none (`Ai.TechFallback`).
  - In the mock, it appends three extra skills to a skill list shorter than three (`MockApi.TechEnriched`).
- **Headers in the mock.** The mock templates write `data.fullName || ''`. An absent name therefore gives an empty header text, not a placeholder; `MockApi.MockHeader` states this. Only the local templates and the preview use placeholders.

## Model

| member | source | states |
|---|---|---|
| JsText.TrimStart | data-service.js:107 | the result is a suffix of the input; everything dropped is whitespace; the result does not start with whitespace |
| JsText.TrimEnd | data-service.js:107 | the result is a prefix of the input; everything dropped is whitespace; the result does not end with whitespace |
| JsText.TrimEmptyIff | classic-module.js:127 | a trimmed text is empty exactly when the text is all whitespace, which is the blank-row test of the form |
| JsText.TrimIdempotent | data-service.js:132 | trimming twice is trimming once |
| JsText.JoinSplit | data-service.js:132 | joining the pieces of `split(sep)` with sep gives back the text |
| JsText.SplitJoin | classic-module.js:182 | splitting a join of pieces that are free of the separator gives back the pieces |
| JsText.Utf16Length | api/mock-ai-api.js:279 | a string's `.length` lies between its code point count and twice that, and is 0 only for the empty string |
| JsText.HasDigit | api/mock-ai-api.js:338 | true exactly when some character is a decimal digit (the `/\d/` test) |
| CvRecord.Keys | ai-api.js:66 | a key is listed exactly when its field is present |
| CvRecord.NoKeysIffEmpty | app.js:87 | a record has no keys exactly when it is the `{}` record |
| CvDocument.StyleOf | ai-api.js:121-130 | "modern" selects the modern style, "tech" the tech style, and every other name the simple style |
| CvDocument.ContactLines | ai-api.js:139-141 | there is an e-mail, phone or address line exactly when that field is non-empty, carrying its text, and at most one of each |
| CvDocument.PlaceholderHeader | ai-api.js:136-142 | the name and the title are never empty: the field's text, or the placeholder when the field is absent or empty; the contacts are the contact lines |
| CvDocument.PresentInMembers | ai-api.js:144-190 | a topic is among those a template shows exactly when it is in the template's order and the record has data for it |
| CvDocument.SectionFor | ai-api.js:144-190 | a section builder emits its topic's section exactly when the record has data for it, with one block per entry in order |
| CvDocument.InOrder4 | ai-api.js:144-190 | four section builders in a row show exactly the topics with data, in the given order |
| CvDocument.ShownIsNonEmpty | app.js:113-160 | a section that is shown never has an empty body |
| Data.Normalize | data-service.js:13-23 | the normalized record has every key; every absent text becomes `''` and every absent list `[]`; present fields are kept |
| Data.NormalizeKeepsData | data-service.js:13-23 | a field that is present and not the empty text comes through normalization unchanged |
| Data.NormalizeIdempotent | data-service.js:13-23 | normalizing twice is normalizing once |
| Data.Merge | data-service.js:56 | a key of the merged record takes the new record's value when the new record has one, and the old value otherwise |
| Data.MergeKeys | data-service.js:56 | the merged record's keys are the union of both records' keys |
| Data.MergeEmpty | data-service.js:56 | merging with `{}` on either side changes nothing |
| Data.MergeIdempotent | data-service.js:56 | merging the same update twice is merging it once |
| Data.MergeAssociative | data-service.js:56 | two updates in a row are one update with their merge |
| Data.IsValidEmail | data-service.js:124-127 | the character matcher accepts exactly the texts of the form local@domain.tld, with no whitespace or second `@`, and a dot inside the domain |
| Data.FormatSkills | data-service.js:130-133 | `''` gives no skill; every skill returned is non-empty, trimmed and free of commas |
| Data.FormatSkillsOfBlank | data-service.js:130-133 | a text that is all whitespace gives no skill |
| Data.FormatSkillsOfJoin | data-service.js:130-133 | parsing the `join(', ')` of skills that are non-empty, trimmed and free of commas gives back those skills |
| Data.FormatSkillsStable | data-service.js:130-133 | joining parsed skills and parsing them again gives the same list |
| Data.BlankIsTrimmedEmpty | data-service.js:107-113 | the blank test of validation holds exactly for an absent text or one that trims to `''` |
| Data.DataService.constructor | data-service.js:5-9 | the record starts as `{}` with both counters at 1; the storage is whatever was persisted |
| Data.DataService.SaveFormData | data-service.js:12-29 | the record becomes the normalized form data, is stored, and is returned |
| Data.DataService.LoadFromLocalStorage | data-service.js:32-39 | returns what is stored; a stored record replaces the current one, and nothing stored leaves it unchanged |
| Data.DataService.ClearAllData | data-service.js:42-47 | the record is `{}`, both counters are 1, and the storage is emptied |
| Data.DataService.GetCurrentData | data-service.js:50-52 | the current record |
| Data.DataService.UpdateData | data-service.js:55-59 | the record becomes the merge of the old record with the update, is stored, and is returned |
| Data.DataService.GenerateDemoData | data-service.js:62-101 | the record and the storage both become the fixed demo record |
| Data.DataService.ValidateData | data-service.js:104-121 | valid exactly when there are no errors; valid exactly when the name and the e-mail are non-blank and the e-mail is well formed; a blank name is the first error; each error appears exactly when its condition holds; at most two errors, all distinct |
| MockApi.GenerateExperiencesSection | api/mock-ai-api.js:136-182 | the experience section is always written; with entries it shows one block per experience in order, and without entries it shows the placeholder paragraph |
| MockApi.GenerateEducationSection | api/mock-ai-api.js:185-206 | a section exists exactly when there are educations, with one block per education in order |
| MockApi.GenerateSkillsSection | api/mock-ai-api.js:209-228 | a section exists exactly when there are skills, with one badge per skill in order |
| MockApi.MockInOrder4 | api/mock-ai-api.js:76-133 | four runs of sections, each what the mock writes for its topic, show exactly the kept topics of the four, in order |
| MockApi.MockPresentMembers | api/mock-ai-api.js:76-133 | a mock template shows a topic exactly when it is in its order and the record has data for it, and it always shows experience |
| MockApi.GenerateSimpleCV | api/mock-ai-api.js:76-91 | the header has the name or `''`, the title or `''`, and the e-mail and phone lines; it is followed by profile, experience, education and skills, each shown as the record has it |
| MockApi.GenerateModernCV | api/mock-ai-api.js:94-111 | there are two columns: profile and experience on the left, skills and education on the right; the header has no contacts |
| MockApi.TechEnriched | api/mock-ai-api.js:116-118 | a present skill list shorter than three gets the three extra technical skills appended; every other key is unchanged; a present skill list ends with at least three entries |
| MockApi.GenerateTechCV | api/mock-ai-api.js:114-133 | the record is enriched first; then comes the technical banner, followed by skills, experience, profile and education of the enriched record |
| MockApi.Take | api/mock-ai-api.js:268 | `slice(0, n)`: the first min(n, length) elements |
| MockApi.GenerateAISuggestions | api/mock-ai-api.js:231-269 | the suggestions are the first five of the rule hints followed by the generic tips |
| MockApi.ExperienceHints | api/mock-ai-api.js:240-246 | the `forEach` over experiences gives the hints of `DescriptionHints`, one per thin description, in order |
| MockApi.SuggestionsShape | api/mock-ai-api.js:231-269 | at most five suggestions; the rule hints come first in their order; with at most three rule hints, both generic tips are kept |
| MockApi.SuggestionsForEmpty | api/mock-ai-api.js:231-269 | the `{}` record gets the profile, experience and skills hints, then the two generic tips |
| MockApi.DescriptionHintsSound | api/mock-ai-api.js:241-245 | every experience hint names the company, or "cet employeur", of an experience whose description is shorter than 20; there is no hint exactly when no description is that short |
| MockApi.ScoreBounded | api/mock-ai-api.js:272-285 | the score lies between 0 and the total weight; it is 0 exactly when no criterion is met, and the total exactly when every criterion is met |
| MockApi.ScoreOfCriteria | api/mock-ai-api.js:276-282 | the score is the sum of the seven criteria's gains, and their weights sum to 100 |
| MockApi.Completeness | api/mock-ai-api.js:272-285 | a percentage from 0 to 100: 0 exactly when no criterion is met, and 100 exactly when every criterion is met |
| MockApi.CalculateCompleteness | api/mock-ai-api.js:272-285 | the sequence of checks gives the rounded percentage of `Completeness` |
| MockApi.RoundWholePercent | api/mock-ai-api.js:284 | `Math.round((score / 100) * 100)` is the score |
| MockApi.ScoreMonotone | api/mock-ai-api.js:272-285 | a record meeting at least the criteria of another scores at least as much |
| MockApi.IdentifyStrengths | api/mock-ai-api.js:288-308 | one to four strengths, all distinct, each present exactly when its threshold is passed; the fallback strength appears alone, exactly when no threshold is passed |
| MockApi.StrengthRules | api/mock-ai-api.js:289-305 | the four threshold tests push at most four distinct strengths, each exactly when its threshold is passed, and never the fallback |
| MockApi.IdentifyWeaknesses | api/mock-ai-api.js:311-327 | each weakness is present exactly when its condition holds; at most three, all distinct |
| MockApi.AnyQuantified | api/mock-ai-api.js:337-339 | true exactly when some description contains a digit |
| MockApi.GenerateRecommendations | api/mock-ai-api.js:330-351 | two to four recommendations, all distinct, always ending with the two fixed ones; "complete the sections" exactly when completeness is below 70; "quantify" exactly when experiences are present and none has a digit |
| MockApi.CalculateCVScore | api/mock-ai-api.js:354-360 | the score is the rounded mean of completeness, min(10 per experience, 30) and min(3 per skill, 30): three times the score is within one of their sum, which has exactly one integer solution; it lies between 0 and 53 |
| MockApi.CVScoreOfEmpty | api/mock-ai-api.js:354-360 | the `{}` record scores 0 |
| MockApi.AllDetailed | api/mock-ai-api.js:373 | true exactly when every description is longer than 30 |
| MockApi.GetPriorityAreas | api/mock-ai-api.js:363-389 | each area is present exactly when its condition holds; at most three, all distinct, each one of the four areas the code pushes; no medium area comes before a high one |
| MockApi.HighPriorityAreas | api/mock-ai-api.js:366-372 | the two high-priority tests: the profile area exactly for a summary shorter than 50 or absent, the experience area exactly without experiences; nothing else, no repeats |
| MockApi.MediumPriorityAreas | api/mock-ai-api.js:374-386 | the two medium-priority tests: the descriptions area exactly when experiences exist and not all are detailed, the skills area exactly for fewer than three skills; nothing else, no repeats |
| MockApi.GenerateCV | api/mock-ai-api.js:6-45 | an error exactly for a missing or `{}` record; otherwise the style dispatch gives the chosen template's shape over the record, which the tech style enriches, and returns that record with the suggestions computed from it |
| MockApi.RejectsExactlyEmpty | api/mock-ai-api.js:11 | the no-data guard rejects exactly a missing record or `{}` |
| Ai.GenerateSimpleCV | ai-api.js:133-192 | the placeholder header, then one column showing profile, experience, education and skills as the record has them, under the simple headings |
| Ai.GenerateModernCV | ai-api.js:194-257 | the placeholder header, then two columns: profile and experience in the main one, skills and education in the side one, under the modern headings |
| Ai.TechFallback | ai-api.js:260-263 | a record without skills gets the six default skills; a record with skills keeps them; every other key is unchanged |
| Ai.GenerateTechCV | ai-api.js:259-321 | the placeholder header, then skills first, followed by experience, profile and education of the record with the skill fallback applied, under the tech headings |
| Ai.LocalTemplatesAgree | ai-api.js:118-131 | every local template has the placeholder header, and shows a topic exactly when the data it renders has that topic |
| Ai.AIModule.constructor | ai-api.js:5-8 | keeps the data service and whether the API script is loaded |
| Ai.AIModule.GenerateCVLocally | ai-api.js:118-131 | renders the custom data or the stored record with the chosen template; the tech fallback is written through to the stored record when no custom data is given |
| Ai.AIModule.CallMockAIApi | ai-api.js:100-116 | without the API, falls back to the local template; with it, errors exactly for `{}`, and otherwise returns the mock's document, with the tech enrichment written through to the stored record |
| Ai.AIModule.GenerateWithFallback | ai-api.js:78-97 | the local fallback is taken exactly when the API is loaded and refuses the record; otherwise the document is the API's, or the local one without the API |
| Ai.AIModule.GenerateCV | ai-api.js:62-98 | cancelled exactly when the record is `{}` and demo data is declined, and then nothing changes; otherwise the record (the demo data, if it was empty) is rendered, and the API fallback is never taken |
| App.GeneratePreviewCV | app.js:102-161 | the placeholder header, then one column showing profile, experience, education and skills as the record has them, under the preview headings |
| App.PreviewIsSimpleRetitled | app.js:102-161 | the preview is the simple local template with only the profile retitled: the same header, and section by section the same topic and body |
| App.UpdatePreview | app.js:83-100 | the "no data" message exactly for `{}`, the preview otherwise |
| App.ProposedFileName | app.js:178 | "CV_", then the full name or "mon-cv", then ".pdf" |
| App.ExportCVToPDF | app.js:164-198 | a missing service is reported first, then `{}`; otherwise the proposed name, a file name that is never empty (the answer, or the default when the prompt is cancelled or left empty), and the export kind that was chosen |
| Classic.NonBlank | classic-module.js:126-127 | one mark per row, true exactly when the key field is not blank |
| Classic.KeptIndicesExactly | classic-module.js:125-150 | the kept rows are exactly, and in increasing order, the rows whose key field is not blank |
| Classic.CollectExperiences | classic-module.js:122-137 | the loop gives the experiences of the rows with a non-blank title, in row order |
| Classic.CollectEducations | classic-module.js:139-150 | the loop gives the educations of the rows with a non-blank degree, in row order |
| Classic.KeptExperiencesSpec | classic-module.js:122-137 | an experience is collected for a row exactly when its trimmed title is non-empty, in row order, carrying that row's four fields |
| Classic.KeptEducationsSpec | classic-module.js:139-150 | an education is collected for a row exactly when its trimmed degree is non-empty, in row order, carrying that row's three fields |
| Classic.ClassicModule.constructor | classic-module.js:5-10 | both counters start at 1, and no event has been sent |
| Classic.ClassicModule.AddExperienceField | classic-module.js:55-81 | adds one blank experience row and counts it |
| Classic.ClassicModule.AddEducationField | classic-module.js:83-105 | adds one blank education row and counts it |
| Classic.ClassicModule.SaveFormData | classic-module.js:107-169 | rejected exactly when the submitted record fails validation, with errors and nothing saved or announced; otherwise the normalized record is saved and announced once |
| Classic.ClassicModule.LoadExperiences | classic-module.js:196-230 | one row per loaded experience, its missing fields blank, and the counter at their number; an empty list gives one blank row with the counter at 1 |
| Classic.ClassicModule.LoadEducations | classic-module.js:232-262 | one row per loaded education, with the counter at their number; an empty list gives one blank row with the counter at 1 |
| Classic.ClassicModule.LoadData | classic-module.js:171-194 | fills the form exactly when a record is stored: the scalar inputs, one experience row and one education row per entry with each missing field blank (one blank row for an empty list), and the counters at the entry counts; skills written with `join(', ')` parse back to the same list when each is non-empty, trimmed and free of commas |
| Classic.Rows | classic-module.js:196-262 | one row per entry, or a single blank row for an empty list |
| Classic.RowsOfExperiences | classic-module.js:196-230 | experience rows filled entry by entry, with blanks for missing fields, are the rows of `Rows` for each of the four inputs |
| Classic.RowsOfEducations | classic-module.js:232-262 | education rows filled entry by entry are the rows of `Rows` for each of the three inputs |
| Classic.ClassicModule.ClearAllData | classic-module.js:312-327 | on confirmation, empties the store and sets the store's counters to 1, resets the form with both counters at 1, and announces `{}`; declining changes nothing |
| Pdf.SeparatorRange | pdf-service.js:149-173 | the separator is between y 50 and y 74, and at 50 exactly when there is no contact line |
| Pdf.EntryTop | pdf-service.js:195-198 | an entry never starts below y 250, and a new page is added exactly when the cursor is past it |
| Pdf.ExperiencesBreaks | pdf-service.js:193-223 | each experience adds at most one page |
| Pdf.EducationsBreaks | pdf-service.js:231-249 | each education adds at most one page |
| Pdf.PagesBound | pdf-service.js:189-287 | the styled export adds at most one page per entry, plus one for the skills; without entries or skills it has one page |
| Pdf.LayoutExperience | pdf-service.js:193-223 | one experience: a new page exactly when the cursor is past 250, the head with title, company and period at the resulting y, the description lines 12 below it when there is a description, and the cursor 15 lower, plus 12 and five per line for a description |
| Pdf.LayoutExperiences | pdf-service.js:193-223 | the experience loop appends exactly `ExperienceDraws` of the experiences, keeps every draw on an existing page and sound, and ends with the page count and cursor of `ExperiencesFlow` |
| Pdf.ExperienceEntryHeads | pdf-service.js:200-220 | one experience draws one entry head, at its top, and otherwise only its description lines |
| Pdf.ExperienceHeads | pdf-service.js:193-223 | the experience draws hold exactly one entry head per experience, in order, with its title, company and period, never below y 250, and no badge |
| Pdf.LayoutEducation | pdf-service.js:231-249 | one education: a new page exactly when the cursor is past 250, the head with degree, institution and year at the resulting y, and the cursor 15 lower |
| Pdf.LayoutEducations | pdf-service.js:231-249 | the education loop appends exactly `EducationDraws` of the educations, keeps every draw on an existing page and sound, and ends with the page count and cursor of `EducationsFlow` |
| Pdf.EducationHeads | pdf-service.js:231-249 | the education draws hold exactly one entry head per education, in order, with its degree, institution and year, never below y 250, and no badge |
| Pdf.BadgeRows | pdf-service.js:265-284 | the badges of `Badges` follow the row rule: one per skill in order, 10 units of its width plus 10 wide, on the page and sound; the first at x 20, a row lower if it does not fit; each next one 5 after the previous on the same row, or at x 20 one row (10) lower exactly when it would cross the right margin there |
| Pdf.LayoutBadges | pdf-service.js:265-284 | the badge loop appends exactly the badges of `Badges` and ends on its last row; the page count is unchanged |
| Pdf.SkillsSectionBadges | pdf-service.js:253-287 | the skills section's badges name the record's skills in order, and it draws no entry head |
| Pdf.FooterRun | pdf-service.js:98-109 | one footer per page |
| Pdf.AddFooter | pdf-service.js:95-110 | the second pass appends, to the finished body, the footer "Page i/N" for each page i of the N pages |
| Pdf.OneFooterPerPage | pdf-service.js:95-110 | after a body without footers, the footers are exactly the last N draws, and page p has exactly one, reading "Page p+1/N" |
| Pdf.ContactsDrawn | pdf-service.js:149-168 | the contact texts drawn are the record's contact lines, in order, on the first page, each lower than the one before, from y 50 and above the separator |
| Pdf.LayoutContacts | pdf-service.js:149-168 | the contact lines appended are exactly `ContactDraws`, and the cursor ends at the separator's y |
| Pdf.LayoutHeader | pdf-service.js:133-173 | the header draws exactly `HeaderDraws`: the band with the name or "Nom Prénom" and the title or "Poste recherché" first, the contact lines, and the separator last at its y |
| Pdf.LayoutSummary | pdf-service.js:177-186 | only when there is a summary, appends the profile title and the wrapped summary 10 below it, and moves the cursor by the title plus five per wrapped line plus 10 |
| Pdf.ExperienceSection | pdf-service.js:189-224 | appends exactly `ExperienceSectionDraws`: with experiences, the title then the entries from 10 below it, ending at the page count and cursor of `ExperiencesFlow`; without any, nothing is drawn and nothing moves |
| Pdf.EducationSection | pdf-service.js:227-250 | appends exactly `EducationSectionDraws`: with educations, the title then the entries from 10 below it, ending at the page count and cursor of `EducationsFlow`; without any, nothing is drawn and nothing moves |
| Pdf.SkillsSection | pdf-service.js:253-287 | appends exactly `SkillsSectionDraws`: with skills, a new page exactly when the cursor is past y 220, then the title and the badges 10 below it; without any, nothing is drawn and the page count is unchanged |
| Pdf.LayoutLists | pdf-service.js:189-287 | experience, education and skills append exactly `ListDraws` and end with the page count of `Flow` |
| Pdf.BodyParts | pdf-service.js:133-287 | the entry heads of the styled body are those of the experience section followed by those of the education section, and its badges are the record's skills |
| Pdf.BodyContents | pdf-service.js:133-287 | the styled body holds exactly one entry head per experience and per education, experiences first, each in order with its fields and never below y 250, and its badges name the record's skills in order |
| Pdf.LayoutBody | pdf-service.js:133-287 | the first pass draws exactly `StyledBody`, on the pages of `Flow`, sound, starting with the band and containing the separator |
| Pdf.PDFService.ExportCVToPDF | pdf-service.js:16-48 | succeeds exactly when the library is loaded and the element to capture exists |
| Pdf.PDFService.ExportStyledCV | pdf-service.js:113-305 | without the library, nothing is drawn and the answer is false; otherwise the page count is that of `Flow`, the body is `StyledBody` (see `BodyContents`), starts with the band, contains the separator, and keeps every draw on an existing page and sound, followed by one footer per page |

## Left out

- The DOM, CSS and user interface: event wiring, tabs, status and loading messages, and their timers. The form is a value, `Classic.Form`, and the `cvDataUpdated` events are a log of the records they carry.
- localStorage and JSON: the storage is one optional record, with no serialization, quota or parse errors.
- Awaits and timing: the live-update listeners and `simulateNetworkDelay` carry no logic here. `checkAvailability` and the `Math.random` it uses are left out.
- The capture export (`generatePDF`, pdf-service.js:51-92): the html2canvas rasterisation, the scaling and centring of the one captured image on a single page (pdf-service.js:75-84) and its footer pass (pdf-service.js:87) are left out. Only its guards are modelled, in `Pdf.PDFService.ExportCVToPDF`.
- The internals of jsPDF:
  - Text wrapping (`splitTextToSize`) and string widths (`getStringUnitWidth`) are parameters of the layout. One wrap function, `lineCount`, serves both the 11-point summary and the 10-point descriptions, although jsPDF wraps at the current font size (pdf-service.js:181-183 and 215-217); the model therefore cannot wrap the same text differently in the two places. No proved property depends on the line counts being equal.
  - The page size is a parameter.
  - Fonts, colours, line widths, the footer's date text, and `pdf.save` are left out.
  - `try`/`catch` around the library is left out, since library failures are not modelled.
- Pdf.PDFService.ExportStyledCV: an entry read from storage may lack its title, company, period, degree, institution or year. jsPDF's `text()` refuses an undefined string, so the code then ends in its `catch` (pdf-service.js:299-304) and returns false. The model draws the absent field as an `Option` value and answers true.
- The exact HTML text and template markup of the document: the model renders to the abstract document of `CvDocument`. Escaping is not modelled, and neither is the source's lack of it.
- Classic.ClassicModule.LoadExperiences, Classic.ClassicModule.LoadEducations and Classic.ClassicModule.LoadData: the code writes the loaded row values into `innerHTML` markup, as `value="..."` attributes and a raw textarea body (classic-module.js:208-221, 244-252). A `"` in a value there cuts it short and `&...;` entities are decoded, so for such text the rows stated by these contracts differ from what the form shows. The model treats the markup as carrying the text unchanged.
- Message texts: errors, suggestions, strengths, weaknesses, recommendations and areas are datatypes. Each has a `Text()` function for the French wording where a later decision depends on it.
- `analyzeCV`, `suggestImprovements`, `getDefaultData`, `callRealAI` and `useExistingData` are not part of this model: they are helpers outside the core, or stubs that no modelled path reaches. `metadata` and the timestamps of the mock's response are also not part of this model.
- `form.reset()` in `clearAllData` is modelled as every input being blank, since index.html is not part of this model.
- `simulateAIData` (ai-api.js:351-360): its `generateDemoData` call is modelled inside `Ai.AIModule.GenerateCV`, which `generateCV` reaches at ai-api.js:71. Only its status message and its `cvDataUpdated` event are left out.
- `init`: the constructor's automatic `loadData` call is a separate method here (`Classic.ClassicModule.LoadData`). `setupEvents` is part of the DOM event wiring that is left out.
- Pdf.EntryHead: the entry fields are `Option` values, because a record read from storage may lack them. For what the code does when such a field is missing, see the `Pdf.PDFService.ExportStyledCV` line above.
- Ai.AIModule.GenerateWithFallback: the `catch` path is the only failure the mock can produce, a rejected `{}` record; other exceptions are not modelled.
