# Portfolio page script — a Dafny model

This project models the behaviour of `assets/script.js`, the script behind a
personal academic portfolio site. It covers:

- **Theme** — `ThemeManager`. It resolves the light or dark theme from local
  storage or the system preference, writes it to `data-theme` and to storage,
  and sets the toggle button's glyph. It flips the theme on a click and
  refreshes the particle background. The system-preference listener is
  registered only while nothing is stored.
- **Scroll** — `NavigationHandler` and the scroll targets. The nav bar shows
  past 50 pixels. The back-to-top control shows past the hero height less
  100. A navigation click scrolls to 68 pixels above its target. The page-load
  hash correction uses 68 for the details section and 90 for any other.
- **Terms** — `formatTerms`. A single term is rewritten year first. Two or
  more terms are parsed, sorted stably by year (most recent first) and then by
  season (Spring, Summer, Fall, Winter, unknown first), and joined with
  `<br>`.
- **Labels** — skill-key humanisation (a space before each capital, then the
  first character upper-cased), the grant/funding predicate and its award
  icon, the split around ", Carlson School of Management" in honor titles, and
  the choice of link for an industry project's title.
- **Popover** — `positionPopover`, and the show/hide state of the TechMemory
  QR popover and its backdrop.
- **Render** — `populateDetailsPage`. The page is a `Page` object. Each list
  container is a sequence of `<li>` inner-HTML strings that rendering appends
  to. The services block, header texts, footer and contact hrefs are
  assigned. Each render also adds the popover markup to the body once more.
  `Page.Populate` is proved equal to the pure function `Populated`, one
  section after another, and the lemmas about the page are stated about
  `Populated`.
- **Strings** and **Wrappers** are shared helpers. They give JavaScript's
  `trim`, `includes`, `split` and `join`, the first occurrence of a substring, and truthiness, in Dafny
  terms.

The core source file's non-ASCII literals appear in its text as UTF-8 bytes
decoded a second time as Windows-1252: the bullet, the copyright sign and the
two theme glyphs. The model uses the intended characters: U+2022, U+00A9,
U+263E and U+2600.

## Model

| member | source | states |
|---|---|---|
| Strings.Trim | assets/script.js:1006 | `trim()`: the result occurs in the input where the leading whitespace ends, everything before it and everything after it is whitespace, it neither starts nor ends with whitespace, and it is empty exactly when the input is all whitespace |
| Strings.IndexOf | assets/script.js:1083-1085 | the first occurrence of a substring: found exactly when the text contains it (the `includes` test at 1083), and then the earliest one, so the text before it is the first piece of `split` at 1084-1085 |
| Strings.Split | assets/script.js:1006 | `split(c)` gives at least one part, two or more exactly when `c` occurs, and no part contains `c` |
| Strings.JoinSplit | assets/script.js:1006-1009 | joining the parts of a split with the separator gives back the original text |
| Strings.SplitAtLast | assets/script.js:1008-1009 | the last part of a split is what follows the last separator, and the other parts rejoined are what precedes it |
| Terms.TokensRejoin | assets/script.js:1017-1020 | for a trimmed term with a space, season + " " + year is the trimmed term; the year token is non-empty and has no space; the season is non-empty |
| Terms.ParseEntry | assets/script.js:1016-1024 | a term with a space parses to its season, its year text and the year's numeric value; a term without one gives year 0, empty season and year text, and keeps the original text |
| Terms.Insert | assets/script.js:1029-1034 | inserting an entry adds exactly that entry to the multiset of entries |
| Terms.InsertSorted | assets/script.js:1029-1034 | inserting into a sorted sequence keeps it sorted under the comparator (year descending, then season rank) |
| Terms.SortEntries | assets/script.js:1029-1034 | the sort's result is sorted and is a permutation of its input |
| Terms.SortEntriesStable | assets/script.js:1029-1034 | the sort is stable: entries with equal year and season rank keep their relative order |
| Terms.InsertWithKey | assets/script.js:1029-1034 | inserting an entry changes the subsequence with a given key only by putting that entry first in it |
| Terms.RenderAllSort | assets/script.js:1037-1044 | sorting before rendering leaves the multiset of rendered terms unchanged |
| Terms.FormatTermsEmpty | assets/script.js:1002 | a missing or empty list formats as the empty string |
| Terms.FormatTermsSingle | assets/script.js:1005-1013 | one term with a space becomes `<span class="term-year">year</span> season`, split at the last space of the trimmed text; a term without a space is returned untouched, untrimmed |
| Terms.RenderParsed | assets/script.js:1037-1043 | a non-empty term renders inside a list exactly as it would on its own |
| Terms.EmptyTermRendering | assets/script.js:1023-1042 | an empty term inside a list renders as a single space, while on its own it formats as the empty string |
| Terms.FormatTermsMany | assets/script.js:1016-1044 | two or more terms give the sorted renderings joined with `<br>`, one per term, a permutation of the unsorted renderings |
| Terms.FormatTerms | assets/script.js:1001-1045 | `formatTerms`: `FormatTermsEmpty`, `FormatTermsSingle` and `FormatTermsMany` state its result for none, one and several terms |
| Terms.FormatSingle | assets/script.js:1005-1013 | the one-term branch; `FormatTermsSingle` states its result and `RenderParsed` relates it to the rendering inside a list |
| Terms.SortedEntriesOrder | assets/script.js:1016-1034 | the sorted entries are a permutation of the parsed ones (`ParseAll`, one `ParseEntry` per term), with years non-increasing and, within one year, seasons in Spring, Summer, Fall, Winter order |
| Terms.Compare | assets/script.js:1027-1034 | the comparator of the sort (year descending, then by `SeasonRank`: unknown seasons first, then Spring, Summer, Fall, Winter); `SortedEntriesOrder`, `InsertSorted` and `SortEntriesStable` state what it orders and how |
| Terms.UndatedAfterDated | assets/script.js:1023-1034 | a term without a year token sorts after every term with a positive year |
| Labels.SpaceCapitalsLength | assets/script.js:1334 | inserting a space before each capital adds exactly one character per capital |
| Labels.UnspaceSpaceCapitals | assets/script.js:1334 | removing the inserted spaces recovers the original key |
| Labels.SpaceCapitalsPrecede | assets/script.js:1334 | every capital in the result is preceded by a space, and a leading capital becomes a leading space |
| Labels.HumanizeShape | assets/script.js:1333-1336 | the humanised key has one extra space per capital and a space before every later capital; its first character is a space (followed by the capital) when the key starts with a capital, the upper-cased letter when it starts with a lower-case one, and the key's own first character otherwise |
| Labels.HumanizeExamples | assets/script.js:1333-1336 | "aB" becomes "A B", "M" becomes " M", and "" stays "" |
| Labels.Humanize | assets/script.js:1333-1336 | the skill-key humanisation; `HumanizeShape` and `HumanizeExamples` state its result |
| Labels.GrantFundingIff | assets/script.js:1120-1123 | a funding note counts as a grant exactly when it contains "Grant" or "Foundation"; the third alternative, "Dean's Small Grant", adds nothing |
| Labels.FundingIcon | assets/script.js:1118-1130 | a non-empty funding note gets the award icon exactly when it counts as a grant, and the bare note otherwise |
| Labels.FundingExamples | assets/script.js:1118-1130 | an NSF grant gets the icon; a missing or empty note adds nothing |
| Labels.FundingHtml | assets/script.js:1118-1130 | the funding suffix of a paper line; `FundingIcon` and `FundingExamples` state its result |
| Labels.AwardTextSplit | assets/script.js:1081-1088 | an award mentioning ", Carlson School of Management" becomes the bold text before its first mention, followed by the suffix, and that text does not itself contain the suffix; any other award is bold as a whole |
| Labels.AwardText | assets/script.js:1082-1088 | the bold award text of an honor line; `AwardTextSplit` states its result |
| Labels.NewlinesToBrShape | assets/script.js:1324 | no newline survives the `<br>` substitution; each newline adds three characters; text without newlines is unchanged |
| Labels.ProjectTitleChoice | assets/script.js:1312-1324 | the TechMemory project's markup always carries the trigger id the popover looks up; another project's markup never does when its fields contain no `=`; a project that links out carries the anchor to its link around its title when neither holds a newline; it links out exactly when its link is truthy and not "To be launched soon" |
| Labels.ChooseTitleLink | assets/script.js:1315-1321 | the choice among the TechMemory trigger, an external link and a plain title; `ProjectTitleChoice` states which one is taken |
| Labels.ProjectHtml | assets/script.js:1312-1324 | an industry project's line with its newlines replaced by `<br>`; `ProjectTitleChoice` states which title markup it carries and `NewlinesToBrShape` what the replacement does |
| Popover.PositionPopover | assets/script.js:1399-1433 | the popover is placed at `Placement` of the link and viewport: right of the link when it fits between the margins, else left of it when that fits, else below it, with the top clamped first to the top and then to the bottom margin; its bottom keeps the bottom margin |
| Popover.PlacementBounds | assets/script.js:1399-1433 | right or left of the link the popover keeps to the left margin, and right of it also to the right margin; its bottom always keeps the bottom margin, and its top keeps the top margin whenever the viewport has room for both margins |
| Popover.QrPopover.constructor | assets/script.js:1377-1455 | the popover and its backdrop start hidden; the trigger is bound only if the link exists |
| Popover.QrPopover.ClickTrigger | assets/script.js:1438-1455 | a click on a bound trigger places the popover at `Placement` of the link and shows it with its backdrop; an unbound trigger changes nothing |
| Popover.QrPopover.Dismiss | assets/script.js:1457-1467 | the close button and the backdrop hide both elements and keep the position |
| Popover.QrPopover.KeyDown | assets/script.js:1469-1475 | Escape hides a visible popover; any other key leaves it as it was |
| Popover.QrPopover.Resize | assets/script.js:1477-1485 | a resize moves a visible popover whose link still exists to `Placement` of the link's new rectangle and otherwise keeps its position; visibility never changes |
| Theme.SystemPreference | assets/script.js:40-55 | the system theme is dark exactly when matchMedia exists and prefers dark, and light otherwise |
| Theme.ResolveThemeCases | assets/script.js:16-17 | a non-empty stored theme wins; otherwise the system preference is used; the result is never empty |
| Theme.ResolveTheme | assets/script.js:16-17 | the stored theme, else the system preference; `ResolveThemeCases` and `ReloadKeepsTheme` state its result |
| Theme.ReloadKeepsTheme | assets/script.js:16-84 | whatever theme is persisted is what the next load resolves |
| Theme.ToggleInvolution | assets/script.js:94-95 | a toggle from light or dark always changes the theme, and two toggles restore it |
| Theme.Toggled | assets/script.js:94-95 | light becomes dark and anything else light; `ToggleInvolution` states that it always changes a light or dark theme and undoes itself |
| Theme.ThemeManager.constructor | assets/script.js:9-38 | init applies and persists the resolved theme exactly once, starts the particles only when the plugin and its element exist, binds the toggle only when the button exists, and registers no system listener, because a theme is then stored |
| Theme.ThemeManager.SetTheme | assets/script.js:82-91 | the attribute and the stored theme both become the new theme; the button glyph is the moon for light and the sun otherwise; nothing else changes |
| Theme.ThemeManager.SetupSystemThemeListener | assets/script.js:57-80 | a listener is added exactly when nothing truthy is stored and matchMedia exists |
| Theme.ThemeManager.RefreshParticles | assets/script.js:98-125 | the particles receive exactly `ParticleRefresh`: with a particle element, a reinitialisation when the plugin offers one and otherwise a recolouring of the first instance if one exists; without the element nothing |
| Theme.ThemeManager.ToggleTheme | assets/script.js:93-107 | light becomes dark and anything else becomes light; the new theme is applied, persisted and shown on the button when there is one; the particles receive exactly the refresh calls for the new theme; the particle state, the click handlers and the system listeners stay as they were |
| Theme.ThemeManager.SystemThemeChanged | assets/script.js:63-78 | while nothing is stored the matching theme is applied, persisted, shown on the button and sent to the particles, and nothing else changes; with a stored theme, and in particular once the manager is initialised, it changes nothing |
| Scroll.HashTargetVersusNavClick | assets/script.js:925-967 | given that an element's `offsetTop` is its rectangle's top plus `pageYOffset`, the hash correction lands where a nav click does for the details section, and 22 pixels higher for any other section |
| Scroll.NavClickTarget | assets/script.js:925-929 | a nav click's target, 68 pixels above the section; `HashTargetVersusNavClick` relates it to the hash correction |
| Scroll.HashTarget | assets/script.js:966-967 | the hash correction's target, 68 or 90 pixels above the section; `HashTargetVersusNavClick` relates it to a nav click |
| Scroll.NavigationHandler.constructor | assets/script.js:384-389 | the hero height is the viewport height and both controls start hidden |
| Scroll.NavigationHandler.OnScroll | assets/script.js:400-419 | with the scroll position read as `pageYOffset`, or the root element's `scrollTop` when that is zero, the nav bar is visible exactly past 50 pixels and the back-to-top control, when it exists, exactly past the hero height less 100; without a nav bar nothing changes; when the hero is at least 150 pixels tall the control is never visible without the nav bar |
| Scroll.NavigationHandler.BackToTopClick | assets/script.js:391-429 | the click, bound only when the nav bar and the control exist, scrolls to the top; there the scroll listener hides the nav bar, and hides the control unless the hero is under 100 pixels tall |
| Scroll.NavigationHandler.OnResize | assets/script.js:432-434 | a resize re-measures the hero height and keeps both visibilities |
| Scroll.NavigationHandler.LoadCheck | assets/script.js:437-445 | the delayed load-time pass ends in the state the scroll listener gives for the same scroll position, so the control is again never visible without the nav bar on a hero at least 150 pixels tall |
| Scroll.NavigationHandler.CorrectHashScroll | assets/script.js:955-995 | the page scrolls to the corrected target, and the nav bar is shown when that target lies past 50 pixels |
| Render.AppendEach | assets/script.js:1058-1062 | appending one `<li>` per item in a loop gives the list followed by the items' markup |
| Render.LectureTerm | assets/script.js:1207 | a guest lecture's term is formatted as a single term |
| Render.HonorItem | assets/script.js:1078-1098 | an honor's `<li>`: its year, its `AwardText`, the amount after a space and the description after `<br>` when each is truthy |
| Render.PaperItem | assets/script.js:1101-1137 | a working paper's `<li>`: bullet and bold title, status, "Read More" link, authors joined with commas, `FundingHtml` and the presentations, each optional part present exactly when the script tests it truthy |
| Render.TalkItem | assets/script.js:1150-1160 | a conference talk's `<li>`; `TalkHeadings` places one per talk below its heading, and `ItemShapes` shows it starts with a newline, unlike any heading |
| Render.ExperienceItem | assets/script.js:1263-1274 | an experience entry's `<li>`: year, bold role at company, location, and the "Working for" line when that field is truthy |
| Render.ItemShapes | assets/script.js:1143-1222 | a course item opens a `teaching-course` block, and talk and lecture items start with a newline |
| Render.HeadingShapes | assets/script.js:1143-1222 | every heading opens a `teaching-category` block, and the three headings differ from each other |
| Render.TalkHeadings | assets/script.js:1143-1222 | the talks list has the CONFERENCES, INSTRUCTOR and GUEST LECTURES headings exactly when the matching source list is non-empty, and one item per entry below each heading |
| Render.ServicesShape | assets/script.js:1226-1257 | the services markup is empty exactly when all three service lists are missing or empty, and starts with the journal block when there are journal entries |
| Render.RepopulateDuplicates | assets/script.js:1047-1375 | rendering twice leaves every assigned text, the services markup and the contact hrefs as one render left them, and adds the popover markup twice |
| Render.RepopulateLists | assets/script.js:1047-1375 | rendering never clears a container: each list keeps its old items as a prefix, and a second render appends the same items a first one did |
| Render.Populated | assets/script.js:1047-1375 | the page state after `populateDetailsPage`; `Page.Populate` is proved equal to it, and `RepopulateDuplicates` and `RepopulateLists` state what a second render does |
| Render.Page.constructor | assets/script.js:1047 | the static page shell has every container empty and no popover markup |
| Render.Page.NotesMarkup | assets/script.js:1183-1187 | the loop over a course's notes builds exactly the notes markup |
| Render.Page.CourseContent | assets/script.js:1176-1190 | a course's markup is its formatted terms, name, level and notes |
| Render.Page.AppendCourses | assets/script.js:1172-1192 | the instructor loop appends one item per course |
| Render.Page.AppendTalkSection | assets/script.js:1144-1161 | the conference section is appended as specified |
| Render.Page.AppendInstructorSection | assets/script.js:1165-1193 | the instructor section is appended as specified |
| Render.Page.AppendLectureSection | assets/script.js:1196-1222 | the guest-lecture section is appended as specified |
| Render.Page.ServiceBlockMarkup | assets/script.js:1229-1254 | one referee block's loop builds the block's markup |
| Render.Page.ServicesMarkup | assets/script.js:1227-1256 | the three blocks concatenate to the services markup |
| Render.Page.RenderServices | assets/script.js:1225-1257 | the services markup is replaced only when its container and the service entry both exist |
| Render.Page.AppendExperience | assets/script.js:1260-1276 | experience items are appended only when the container and the entry exist |
| Render.Page.AppendCollaboration | assets/script.js:1279-1299 | the introduction and company items are appended only when the container, the entry and its companies exist |
| Render.Page.AppendProjects | assets/script.js:1302-1327 | the introduction and project items are appended only when the container, the entry and its projects exist |
| Render.Page.AppendSkills | assets/script.js:1330-1340 | one humanised item per skill category is appended when skills exist |
| Render.Page.AppendTalks | assets/script.js:1140-1222 | the three talk sections are appended in order |
| Render.Page.RenderHeader | assets/script.js:1051-1054 | the name, title and about text are set |
| Render.Page.RenderBackground | assets/script.js:1057-1072 | education and research items are appended |
| Render.Page.RenderAcademic | assets/script.js:1075-1222 | honor, paper and talk items are appended |
| Render.Page.RenderIndustry | assets/script.js:1224-1327 | services, experience, collaboration and projects are rendered as their containers allow |
| Render.Page.RenderLinks | assets/script.js:1329-1371 | skills are appended, the contact hrefs set where the link exists and the value is truthy, and the footer written |
| Render.Page.AddPopover | assets/script.js:1373-1391 | the popover markup is added to the body once more |
| Render.Page.Populate | assets/script.js:1047-1375 | populateDetailsPage moves the page to `Populated` of its old state: the sections in source order, then the popover |

## Left out

- Fetching the profile document, `console` logging, timers and the debug globals are left out. The profile is a parameter of `Populate`, and each timer's callback is a method of its own.
- The animation controllers, the smooth-scroll handler's DOM cloning and animation restarts, and the particle plugin's internals are left out. The plugin is reduced to the calls it receives.
- The browser environment is a parameter: `matchMedia` results, element existence, viewport and rectangle sizes, and local storage.
- The footer year comes from the clock. It is passed in as the text `yearText`.
- Terms.FormatTerms: the list case requires year tokens made of decimal digits, and seasons that are not names every JavaScript object inherits (`constructor`, `toString`, ...). `parseInt` on other tokens gives a prefix value or NaN, and an inherited name makes the comparator return NaN. Neither is modelled.
- Terms.DigitsValue: years are unbounded naturals; the 2^53 precision limit of JavaScript numbers is not modelled.
- Strings.Trim: the Unicode space separators are a fixed list (U+0020, U+00A0, U+1680, U+2000 to U+200A, U+202F, U+205F, U+3000); a separator added by a later Unicode version is not modelled.
- Labels.Humanize: `toUpperCase` is modelled for ASCII letters only.
- Render.Page.AppendSkills: skill categories come in the order `Object.keys` gives them; the model takes that order as given.
- HTML escaping and parsing of the injected markup are left out; every container holds the markup string it was given.
- A profile value of the wrong JSON type is left out. A non-array list, or a missing `teaching` or `researchInterests` object, makes the script throw, and so does a non-string award (1083), paper funding (1121-1123) or term (1006, 1017), or a non-array author list (1116). Any other field is interpolated into the markup as JavaScript renders it (`undefined`, a number's digits); the model takes every such field as a string.
- Render.Page: the containers the script uses without a null test (profile name, education, papers, talks, footer, ...) are assumed present. The eight it tests for are the `Containers` flags: services (1225), experience (1260), collaboration (1279), projects (1302) and the four contact links (1344-1347).
- Scroll.NavigationHandler.CorrectHashScroll: the script looks up the nav bar again without a null test and would throw when it is missing; the model does nothing then.
- Popover.PositionPopover: `left` is not clamped when the popover is placed below the link; the model computes the same.
- Popover and Scroll: viewport sizes, rectangle coordinates, `pageYOffset`, `scrollTop`, `offsetTop` and `innerHeight` are integers; the fractional pixel values browsers report are not modelled.
- Render.Page.AddPopover: the model counts how many times the popover markup was added, not the duplicate elements and listeners each addition leaves behind.
- Theme.ThemeManager.SystemThemeChanged: the system-preference listener is never registered after init, because init always stores a theme first; its body is modelled and proved inert in that state.
- Scroll.NavigationHandler.BackToTopClick: smooth scrolling passes through intermediate positions, each firing the scroll listener; the model takes only the arrival at the top. When the page is already at the top, `scrollTo` fires no scroll event and the visibilities stay as they were (stale after a resize, say), whereas the model always replays the listener at position 0.
