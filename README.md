# DevAcessível in Dafny

A Dafny model of the behavioural core of DevAcessível. DevAcessível is a React site that teaches web accessibility through a catalogue of "macetes" (tips). The model covers these parts:

- **The site theme.** `ThemeContext` models how the initial theme is chosen from storage and from the system preference. It models the three-way cycle light → dark → high contrast. It also models the effect that runs after each change: the theme is written to storage, the `<body>` class is overwritten and the change is announced in a live region.
- **The tip catalogue.** `UseTips` models the three-criterion filter, the de-duplicated category and difficulty lists, and lookup by id. `TipsData` holds the three records that ship with the site.
- **The pages.** `CategoriesPage` groups the catalogue by category, searches the category names and renders the cards. `HomePage` chooses between loading, error and results. `TipDetailPage` models the detail view, its redirect condition and the WCAG quick-reference links.
- **The interactive widgets.** These are:
  - the filter bar, with its draft and committed search;
  - the accessibility menu in `Layout`;
  - the focus trap;
  - the skip link;
  - the code block's copy flag;
  - the design-system button;
  - the media-query hook;
  - the header's and the stand-alone toggle's theme labels.

Each source file has its own module. Pure view logic becomes functions and lemmas. Components that hold state become classes: their fields are the React state cells, and their methods are the handlers and effects, with `modifies` clauses. Browser state is modelled as small classes in `Dom`:

- `document.body`'s class set and font size;
- `localStorage`;
- the live region;
- the clipboard;
- `document.activeElement`.

Three shared modules support the rest:

- `Wrappers` holds `Option`, `Result` and JavaScript string truthiness.
- `Text` holds ASCII case mapping, `includes`, `split(' ')[0]` and decimal rendering.
- `Seqs` holds `filter` and the insertion-ordered de-duplication that `[...new Set(xs)]` performs.

React's effects are modelled as running synchronously after the state change that triggers them. A `setState` with an unchanged value triggers nothing.

## Model

| member | source | states |
|---|---|---|
| ThemeContext.ParseTheme | src/contexts/ThemeContext.tsx:31 | a string parses to a theme only when it is that theme's name |
| ThemeContext.ThemeIdRoundTrip | src/contexts/ThemeContext.tsx:4 | every theme's name parses back to that theme |
| ThemeContext.StoredThemeWins | src/contexts/ThemeContext.tsx:28-33 | a stored valid theme is the initial theme, whatever the system preference |
| ThemeContext.InvalidStoredValueIgnored | src/contexts/ThemeContext.tsx:30-41 | a stored string outside the three names is ignored: dark if `matchMedia` exists and prefers dark, else light |
| ThemeContext.Next | src/contexts/ThemeContext.tsx:67-73 | the successor always differs from the current theme |
| ThemeContext.CycleHasPeriodThree | src/contexts/ThemeContext.tsx:67-73 | three toggles return to the start; one or two never do; the cycle visits all three themes |
| ThemeContext.ThemeNameInjective | src/contexts/ThemeContext.tsx:58-62 | the announced names claro / escuro / alto contraste identify their theme |
| ThemeContext.BodyClassInjective | src/contexts/ThemeContext.tsx:53 | distinct themes give distinct body classes |
| ThemeContext.HighContrastBodyClass | src/contexts/ThemeContext.tsx:53 | the body class is `theme-high-contrast` exactly for the high-contrast theme |
| ThemeContext.ThemeProvider.constructor | src/contexts/ThemeContext.tsx:28-64 | mounting resolves the initial theme from storage and preference, then runs the effect: storage, body class and announcement all reflect it |
| ThemeContext.ThemeProvider.ApplyTheme | src/contexts/ThemeContext.tsx:48-64 | storage key `theme` holds the theme, the body class list is exactly `theme-<id>`, the announcement is rewritten only if the region exists, and the font size is untouched |
| ThemeContext.ThemeProvider.SetTheme | src/contexts/ThemeContext.tsx:45-64 | the theme becomes the argument; an unchanged value writes nothing, a new one runs the effect |
| ThemeContext.ThemeProvider.ToggleTheme | src/contexts/ThemeContext.tsx:67-73 | the theme becomes its successor, and storage, body and announcement are synced to it |
| ThemeContext.PersistedThemeSurvivesReload | src/contexts/ThemeContext.tsx:28-50 | a new provider mounted over the storage an old one synced starts with the old one's theme |
| Header.AriaLabel | src/components/layout/Header.tsx:142-146 | the label names `ThemeName(Next(t))`, the theme a click moves to |
| Header.ExactlyOneIcon | src/components/layout/Header.tsx:148-150 | exactly one of the three icon slots is non-empty, the one for the current theme |
| Header.LabelTracksToggle | src/components/layout/Header.tsx:141-146 | consecutive labels differ, and two clicks ahead the label names the starting theme |
| ThemeToggle.ThemeIcon | src/components/common/ThemeToggle.tsx:36-45 | the sun is shown exactly in the dark theme, and the moon in light and high contrast |
| ThemeToggle.LabelMatchesToggleOnlyFromLight | src/components/common/ThemeToggle.tsx:47-56 | the as-written label names the real successor iff the theme is light |
| ThemeToggle.DarkThemeLabelMisleads | src/components/common/ThemeToggle.tsx:61-62 | in the dark theme the label promises "claro" while the click yields high contrast |
| ThemeToggle.CorrectedNextThemeName | src/components/common/ThemeToggle.tsx:47-56 | the corrected name is the successor's name |
| ThemeToggle.CorrectedLabel | src/components/common/ThemeToggle.tsx:61-62 | the corrected label equals the header button's label |
| DesignTheme.UseTheme | src/design-system/ThemeProvider.tsx:30-36 | fails with "useTheme must be used within a ThemeProvider" iff there is no provider; otherwise returns the provider's value |
| DesignTheme.Provider.constructor | src/design-system/ThemeProvider.tsx:45-50 | the mode is the given initial mode, `light` when omitted |
| DesignTheme.Provider.Value | src/design-system/ThemeProvider.tsx:52-60 | the context carries the fixed default tokens whatever the mode, and the current mode |
| DesignTheme.Provider.SetThemeMode | src/design-system/ThemeProvider.tsx:50 | the mode becomes the argument |
| MediaQuery.ResolveQuery | src/design-system/hooks/useMediaQuery.ts:13-15 | a breakpoint key becomes `(min-width: <width>)`, any other string is unchanged |
| MediaQuery.ResolveIdempotent | src/design-system/hooks/useMediaQuery.ts:13-15 | resolving a resolved query changes nothing |
| MediaQuery.MediaQueryHook.constructor | src/design-system/hooks/useMediaQuery.ts:17-34 | `matches` starts as the environment's answer in a browser and false without a window; the listener is attached only in a browser |
| MediaQuery.MediaQueryHook.SetQuery | src/design-system/hooks/useMediaQuery.ts:17-49 | a new query prop re-subscribes the effect (only when the resolved query differs) and does not re-read `matches` |
| MediaQuery.MatchesLagBehindNewQuery | src/design-system/hooks/useMediaQuery.ts:17-49 | after the query changes, the hook is subscribed to the new query but still reports the old query's answer |
| MediaQuery.MediaQueryHook.OnChange | src/design-system/hooks/useMediaQuery.ts:30 | while attached, `matches` becomes the event's value; otherwise it is kept |
| MediaQuery.MediaQueryHook.Cleanup | src/design-system/hooks/useMediaQuery.ts:41-48 | the listener is detached; `matches` and the query are untouched |
| MediaQuery.PreferenceQueriesPassThrough | src/design-system/hooks/useMediaQuery.ts:58-81 | the reduced-motion, colour-scheme and forced-colours queries reach `matchMedia` unchanged |
| MediaQuery.PrefersColorScheme | src/design-system/hooks/useMediaQuery.ts:66-73 | dark iff the dark query matches; light iff only the light one does; otherwise no preference |
| MediaQuery.ColorSchemeIn | src/design-system/hooks/useMediaQuery.ts:66-73 | in a given environment the answer is `PrefersColorScheme` of the dark and light queries' answers there, so dark iff the dark query matches |
| SkipLink.Href | src/components/common/SkipLink.tsx:36 | `#` followed by the target id |
| SkipLink.HrefInjective | src/components/common/SkipLink.tsx:36 | distinct targets give distinct links |
| SkipLink.Link.constructor | src/components/common/SkipLink.tsx:31-32 | the text defaults to "Pular para o conteúdo principal" and the link starts unfocused |
| SkipLink.Link.ClassName | src/components/common/SkipLink.tsx:39 | `focused` iff focused, otherwise empty |
| SkipLink.Link.Focus | src/components/common/SkipLink.tsx:37 | focus sets the flag and the class |
| SkipLink.Link.Blur | src/components/common/SkipLink.tsx:38 | blur clears the flag and the class |
| CodeBlock.WithDefaults | src/components/common/CodeBlock.tsx:95-101 | language defaults to `html`, and the good and bad flags default to false |
| CodeBlock.KindOf | src/components/common/CodeBlock.tsx:25-29 | good iff `isGood`; bad iff `isBad` without `isGood` |
| CodeBlock.StylesAgree | src/components/common/CodeBlock.tsx:25-50 | background, title colour and marker each tell the three kinds apart |
| CodeBlock.DisplayTitle | src/components/common/CodeBlock.tsx:116-120 | a non-empty title wins; otherwise "Código Recomendado", "Código Não Recomendado" or "Código " plus the upper-cased language, in that precedence |
| CodeBlock.DefaultTitle | src/components/common/CodeBlock.tsx:97-119 | with only the code given, the title is "Código HTML" |
| CodeBlock.Block.Feedback | src/components/common/CodeBlock.tsx:137-138 | the feedback is "Copiado!" iff copied, otherwise empty |
| CodeBlock.Block.HandleCopy | src/components/common/CodeBlock.tsx:104-114 | a successful write puts the code on the clipboard and sets `copied`; a failed one changes neither |
| CodeBlock.Block.CopyTimerElapsed | src/components/common/CodeBlock.tsx:110 | the timer clears `copied` and the feedback |
| Button.HeightPx | src/design-system/components/Button/Button.tsx:166-197 | small is 32 px, medium 40 px and large 48 px, each in both directions |
| Button.Render | src/design-system/components/Button/Button.tsx:280-311 | variant defaults to primary and size to medium; the width is 100% iff `fullWidth`; the button is disabled iff `disabled` or `isLoading` |
| Button.LoadingButtonIsInert | src/design-system/components/Button/Button.tsx:299-308 | a loading button is disabled, shows the spinner first, shows no icon, and reads the loading text if non-empty, else the children |
| Button.IdleButtonShowsIcons | src/design-system/components/Button/Button.tsx:300-308 | an idle button has no spinner, is disabled iff `disabled`, and shows the given icons around the children |
| Button.ExactlyOneLabel | src/design-system/components/Button/Button.tsx:305-307 | every rendering has exactly one label |
| UseTips.SomeTagContains | src/controllers/hooks/useTips.ts:109 | true iff some lower-cased tag contains the needle |
| UseTips.FilterTipsMembership | src/controllers/hooks/useTips.ts:97-113 | a tip is kept iff it is in the catalogue and matches category, difficulty and search |
| UseTips.FilterTipsIsSubsequence | src/controllers/hooks/useTips.ts:98 | the filtered list embeds into the catalogue at increasing positions |
| UseTips.DefaultsKeepAll | src/controllers/hooks/useTips.ts:57-61 | the default selections keep the whole catalogue |
| UseTips.NarrowCategory | src/controllers/hooks/useTips.ts:100 | choosing a category keeps a subset of the `all` result, all of that category |
| UseTips.NarrowDifficulty | src/controllers/hooks/useTips.ts:103 | choosing a difficulty keeps a subset of the `all` result, all of that difficulty |
| UseTips.SearchIgnoresCase | src/controllers/hooks/useTips.ts:106-109 | a term and its lower-cased form select the same tips |
| UseTips.SearchIsSubstringMatch | src/controllers/hooks/useTips.ts:106-109 | a non-empty term matches iff it occurs, ignoring case, in the title, the description or a tag |
| UseTips.CategoriesExact | src/controllers/hooks/useTips.ts:86-89 | `categories` has no duplicates and holds exactly the categories present |
| UseTips.DifficultiesExact | src/controllers/hooks/useTips.ts:91-94 | `difficulties` has no duplicates and holds exactly the difficulties present |
| UseTips.FixtureOptions | src/controllers/hooks/useTips.ts:86-94 | over the shipped catalogue the lists are [HTML, Images, Forms] and [Beginner] |
| UseTips.FindById | src/controllers/hooks/useTips.ts:116-118 | `None` iff no tip has the id; otherwise the first tip with it |
| UseTips.FindByIdUnique | src/controllers/hooks/useTips.ts:116-118 | with distinct ids, looking up a tip's id returns that tip |
| UseTips.TipsHook.constructor | src/controllers/hooks/useTips.ts:57-67 | the cells start as the catalogue, not loading, no error, and the given selections |
| UseTips.TipsHook.StartLoading | src/controllers/hooks/useTips.ts:71 | the mount effect sets loading |
| UseTips.TipsHook.FinishLoading | src/controllers/hooks/useTips.ts:74-77 | the load installs the catalogue and clears loading |
| UseTips.TipsHook.FailLoading | src/controllers/hooks/useTips.ts:78-80 | the failure branch records "Erro ao carregar os macetes" and clears loading |
| UseTips.TipsHook.SetSelectedCategory | src/controllers/hooks/useTips.ts:65 | the setter replaces the category selection only |
| UseTips.TipsHook.SetSelectedDifficulty | src/controllers/hooks/useTips.ts:66 | the setter replaces the difficulty selection only |
| UseTips.TipsHook.SetSearchTerm | src/controllers/hooks/useTips.ts:67 | the setter replaces the search term only |
| UseTips.DefaultHookListsAll | src/controllers/hooks/useTips.ts:57-61 | a hook built with the defaults lists the whole catalogue |
| Seqs.FilterMembership | src/controllers/hooks/useTips.ts:98 | `filter` keeps an element iff it is in the input and satisfies the predicate |
| Seqs.FilterIsSubsequence | src/controllers/hooks/useTips.ts:98 | `filter` keeps the input's order |
| Seqs.DedupeElements | src/controllers/hooks/useTips.ts:87 | `[...new Set(xs)]` has no duplicates and exactly the values of `xs` |
| Seqs.DedupeFirstOccurrenceOrder | src/controllers/hooks/useTips.ts:87 | `[...new Set(xs)]` lists values in the order of their first occurrence |
| Text.ToLowerIdempotent | src/controllers/hooks/useTips.ts:107 | lower-casing twice equals lower-casing once |
| Text.ContainsIff | src/controllers/hooks/useTips.ts:107 | `includes` is true iff the needle occurs at some index |
| Text.ContainsEmpty | src/pages/CategoriesPage.tsx:109 | every string includes the empty string |
| Text.FirstToken | src/pages/TipDetailPage.tsx:316 | `split(' ')[0]` is a prefix with no space, followed by a space or the end |
| Text.FirstTokenAt | src/pages/TipDetailPage.tsx:316 | the first token ends at the first space |
| Text.NatToString | src/pages/HomePage.tsx:118 | a count renders as a non-empty digit string with a leading zero only for zero |
| Text.NatToStringRoundTrip | src/pages/CategoriesPage.tsx:169 | the rendered count reads back as the count |
| TipModel.ParseCategory | src/models/interfaces/Tip.ts:4 | a string parses to a category only when it is that category's name |
| TipModel.CategoryNameRoundTrip | src/models/interfaces/Tip.ts:4 | every category's name parses back to that category |
| TipModel.CategoryNameInjective | src/models/interfaces/Tip.ts:4 | distinct categories have distinct names |
| TipModel.ParseDifficulty | src/models/interfaces/Tip.ts:7 | a string parses to a difficulty only when it is that difficulty's name |
| TipModel.DifficultyNameRoundTrip | src/models/interfaces/Tip.ts:7 | every difficulty's name parses back to that difficulty |
| TipModel.DifficultyLabel | src/components/features/FilterBar.tsx:123-127 | Beginner ↔ Iniciante, Intermediate ↔ Intermediário, Advanced ↔ Avançado, in both directions |
| TipsData.IdsDistinct | src/models/data/tips.ts:17 | the shipped ids are pairwise distinct |
| TipsData.CriterionWellFormed | src/models/data/tips.ts:47 | a `d.d.d name` criterion is a run of digits and dots ending at its first space |
| TipsData.NumberedFirstToken | src/pages/TipDetailPage.tsx:316 | the first space-separated word of a numbered criterion is exactly its number |
| TipsData.CriteriaWellFormed | src/models/data/tips.ts:47-93 | every shipped WCAG criterion is a dotted number, a space, then a name |
| CategoriesPage.GroupStep | src/pages/CategoriesPage.tsx:99-105 | one reduce step, creating the key if new and then pushing, extends the grouping by one tip |
| CategoriesPage.GroupByCategory | src/pages/CategoriesPage.tsx:99-105 | the keys are the categories in first-occurrence order, and each key's group is exactly that category's tips in catalogue order |
| CategoriesPage.GroupKeepsOrder | src/pages/CategoriesPage.tsx:103 | a group embeds into the catalogue at increasing positions |
| CategoriesPage.KeysInFirstOccurrenceOrder | src/pages/CategoriesPage.tsx:99-108 | the card order is the order in which categories first appear |
| CategoriesPage.GroupsPartitionTips | src/pages/CategoriesPage.tsx:99-105 | a tip is in its own category's group and in no other |
| CategoriesPage.GroupsNonEmpty | src/pages/CategoriesPage.tsx:99-105 | every key's group has at least one tip |
| CategoriesPage.AbsentCategoryEmpty | src/pages/CategoriesPage.tsx:100-102 | a category with no tip has no tips in its group |
| CategoriesPage.GroupSizeTotalAppend | src/pages/CategoriesPage.tsx:103 | one more tip adds one to the summed group sizes iff its category is a key |
| CategoriesPage.GroupSizesSumToTotal | src/pages/CategoriesPage.tsx:99-105 | the group sizes sum to the catalogue size |
| CategoriesPage.FilteredCategoriesMembership | src/pages/CategoriesPage.tsx:108-110 | a key is listed iff its lower-cased name contains the lower-cased term |
| CategoriesPage.EmptySearchListsAll | src/pages/CategoriesPage.tsx:96-110 | the initial empty search lists every key |
| CategoriesPage.FallbackIffUnknown | src/pages/CategoriesPage.tsx:162-165 | the fallback colour and icon are used exactly for names that are not categories |
| CategoriesPage.CardLink | src/pages/CategoriesPage.tsx:161 | the link is `/?category=` plus the name, and the name parses back to the category |
| CategoriesPage.CountLabelReadsBack | src/pages/CategoriesPage.tsx:169 | the label's first word reads back as the count, and it ends in `s` iff the count is not one |
| CategoriesPage.Page.constructor | src/pages/CategoriesPage.tsx:95-96 | the page starts with the hook's catalogue and an empty search |
| CategoriesPage.Page.Cards | src/pages/CategoriesPage.tsx:158-172 | one card per key that passes the search, in key order |
| CategoriesPage.Page.SetSearchTerm | src/pages/CategoriesPage.tsx:152 | typing replaces the search term |
| CategoriesPage.FreshPageShowsAllCategories | src/pages/CategoriesPage.tsx:96-172 | a fresh page shows a card per category, none with the fallback colour |
| FilterBar.CategoryOptions | src/components/features/FilterBar.tsx:139-144 | "all" first, then each category named as itself, in order |
| FilterBar.DifficultyOptions | src/components/features/FilterBar.tsx:155-160 | "all" first, then each difficulty with its Portuguese label, in order |
| FilterBar.ParseCategoryValue | src/components/features/FilterBar.tsx:137 | an option value parses only to the filter whose value it is |
| FilterBar.ParseDifficultyValue | src/components/features/FilterBar.tsx:153 | an option value parses only to the filter whose value it is |
| FilterBar.CategoryValueRoundTrip | src/components/features/FilterBar.tsx:136-137 | every category filter's value reads back as that filter |
| FilterBar.DifficultyValueRoundTrip | src/components/features/FilterBar.tsx:152-153 | every difficulty filter's value reads back as that filter |
| FilterBar.CategoryOptionsParse | src/components/features/FilterBar.tsx:137-144 | each offered category option selects "all" or its listed category |
| FilterBar.DifficultyOptionsParse | src/components/features/FilterBar.tsx:153-160 | each offered difficulty option selects "all" or its listed difficulty |
| FilterBar.Bar.constructor | src/components/features/FilterBar.tsx:108 | the draft starts as the committed search term |
| FilterBar.Bar.Type | src/components/features/FilterBar.tsx:171 | typing changes only the draft |
| FilterBar.Bar.SubmitSearch | src/components/features/FilterBar.tsx:110-113 | submit prevents the default and commits exactly the draft, nothing else changing |
| FilterBar.Bar.ClearFilters | src/components/features/FilterBar.tsx:115-120 | both selects become "all", the draft and the term become empty, and the list is the whole catalogue |
| FilterBar.Bar.SelectCategory | src/components/features/FilterBar.tsx:137 | choosing an option sets the category selection it names; every other field of the hook is kept |
| FilterBar.Bar.SelectDifficulty | src/components/features/FilterBar.tsx:153 | choosing an option sets the difficulty selection it names; every other field of the hook is kept |
| FilterBar.ClearIsIdempotent | src/components/features/FilterBar.tsx:115-120 | clearing an already cleared bar changes nothing |
| FocusTrap.TrapKey | src/design-system/hooks/useFocusTrap.ts:39-58 | when the default is not prevented, focus is not moved |
| FocusTrap.PreventedIff | src/design-system/hooks/useFocusTrap.ts:39-58 | the default is prevented iff Tab on the last element or Shift+Tab on the first |
| FocusTrap.WrapStaysInside | src/design-system/hooks/useFocusTrap.ts:43-57 | a wrap lands inside the container, on the opposite end |
| FocusTrap.WrapsAreInverse | src/design-system/hooks/useFocusTrap.ts:43-57 | Shift+Tab undoes Tab's wrap and vice versa |
| FocusTrap.OtherKeysIgnored | src/design-system/hooks/useFocusTrap.ts:40 | keys other than Tab change nothing |
| FocusTrap.InitialFocus | src/design-system/hooks/useFocusTrap.ts:32-36 | the initial element if given, else the first focusable, else focus stays |
| FocusTrap.Trap.constructor | src/design-system/hooks/useFocusTrap.ts:17-36 | inactive or without a container nothing happens; otherwise the previous focus is saved and the initial focus set |
| FocusTrap.Trap.KeyDown | src/design-system/hooks/useFocusTrap.ts:39-61 | while registered the handler acts as `TrapKey`; otherwise nothing happens |
| FocusTrap.Trap.Cleanup | src/design-system/hooks/useFocusTrap.ts:64-71 | the handler is removed and the saved focus restored |
| FocusTrap.FocusRestoredAfterTrap | src/design-system/hooks/useFocusTrap.ts:17-71 | activating, pressing any keys and cleaning up leaves focus where it started |
| Layout.ToggleClass | src/components/layout/Layout.tsx:328 | the toggled class flips membership and every other class keeps it |
| Layout.ToggleClassTwice | src/components/layout/Layout.tsx:328 | toggling twice restores the class set |
| Layout.Page.constructor | src/components/layout/Layout.tsx:232 | the menu starts closed with no listeners |
| Layout.Page.SyncListeners | src/components/layout/Layout.tsx:253-276 | re-running the effects registers both handlers iff the menu is open |
| Layout.Page.ToggleMenu | src/components/layout/Layout.tsx:236-238 | the open flag and `aria-expanded` flip together, and the listeners follow |
| Layout.Page.KeyDown | src/components/layout/Layout.tsx:263-277 | Escape closes an open menu; other keys change nothing |
| Layout.Page.MouseDown | src/components/layout/Layout.tsx:241-260 | a mousedown outside menu and button closes the menu; inside either it stays open |
| Layout.Page.IncreaseText | src/components/layout/Layout.tsx:310 | the body font size becomes `larger` |
| Layout.Page.DecreaseText | src/components/layout/Layout.tsx:319 | the body font size becomes `smaller` |
| Layout.Page.ToggleContrast | src/components/layout/Layout.tsx:328 | `theme-high-contrast` is toggled in the body's class set |
| Layout.ContrastOverwrittenByTheme | src/components/layout/Layout.tsx:328 | after a theme change the body holds only the theme's class, so the menu's contrast class survives only if the new theme is high contrast |
| HomePage.ResultsCountReadsBack | src/pages/HomePage.tsx:116-118 | a non-zero count line starts with the count and ends in `s` iff the count is not one |
| HomePage.ResultsCountZeroOnly | src/pages/HomePage.tsx:116-118 | "Nenhum macete encontrado" appears iff the count is zero |
| HomePage.HomeView | src/pages/HomePage.tsx:107-131 | loading first, then a non-empty error, then the count with the empty notice iff no tip matches, else the cards in order |
| HomePage.LoadedDefaultPage | src/pages/HomePage.tsx:107-131 | with default filters the loaded page shows "3 macetes encontrados" and every tip |
| HomePage.FailedLoadShowsError | src/pages/HomePage.tsx:109-112 | a failed load shows the error message |
| HomePage.CategoryLinkIgnored | src/pages/HomePage.tsx:85 | as written, the page reached by the Forms card's link `/?category=Forms` still lists an HTML tip |
| HomePage.CategoryFromUrl | src/pages/CategoriesPage.tsx:161 | the corrected reading preselects a category iff the URL is `/?category=` followed by a category name, and then the URL is that category's card link |
| HomePage.CategoryLinkPreselects | src/pages/CategoriesPage.tsx:161 | read that way, each card's link preselects its category, and the page lists exactly that category's tips |
| TipCard.CardLink | src/components/features/TipCard.tsx:129 | `/dica/` followed by the id, which can be read back |
| TipCard.ShownTags | src/components/features/TipCard.tsx:139-141 | the first at most three tags, in order |
| TipCard.OverflowChip | src/components/features/TipCard.tsx:142 | the chip is present iff there are more than three tags |
| TipCard.TagsAccountedFor | src/components/features/TipCard.tsx:139-142 | shown tags plus the chip's number equal the number of tags |
| TipCard.DefaultsOnlyForUnknown | src/components/features/TipCard.tsx:76-99 | the default colours apply exactly to strings that are not difficulties |
| TipCard.Render | src/components/features/TipCard.tsx:128-151 | the card carries the link, category, truncated tags, chip and Portuguese difficulty label |
| TipCard.BadgeNeverFallsBack | src/components/features/TipCard.tsx:76-99 | a rendered badge never uses the defaults, and its background identifies the difficulty |
| TipDetailPage.LookupTip | src/pages/TipDetailPage.tsx:210 | an absent or empty id finds nothing; otherwise the tip is looked up by id |
| TipDetailPage.FirstTokenOfLower | src/pages/TipDetailPage.tsx:316 | taking the first word commutes with lower-casing |
| TipDetailPage.WcagAnchorOfNumber | src/pages/TipDetailPage.tsx:316 | a criterion numbered with digits and dots links to its number |
| TipDetailPage.WcagLink | src/pages/TipDetailPage.tsx:315-320 | the link text is the criterion and the href is the quick-reference page plus the anchor |
| TipDetailPage.ShownList | src/pages/TipDetailPage.tsx:309 | an absent list shows nothing, a present one shows its items |
| TipDetailPage.CodeExamplesStyled | src/pages/TipDetailPage.tsx:287-299 | the discouraged example comes first and the recommended one second, each titled and styled to match |
| TipDetailPage.DetailOf | src/pages/TipDetailPage.tsx:309-345 | one WCAG link per criterion and one link per resource, in order |
| TipDetailPage.View | src/pages/TipDetailPage.tsx:226-256 | loading, then a non-empty error, then not found, then the tip |
| TipDetailPage.RedirectIffNotFound | src/pages/TipDetailPage.tsx:213-217 | the page navigates home iff it shows "not found" |
| TipDetailPage.CardLinksResolve | src/pages/TipDetailPage.tsx:210 | for every shipped card, the detail page's lookup on the id cut from the card's link returns that tip |
| TipDetailPage.FixtureWcagAnchors | src/pages/TipDetailPage.tsx:316 | every shipped criterion links to its own number |
| Dom.Storage.GetItem | src/contexts/ThemeContext.tsx:30 | `getItem` returns the stored string iff the key is present |
| Dom.Storage.SetItem | src/contexts/ThemeContext.tsx:50 | `setItem` overwrites one key |

## Left out

- React rendering, styled-components CSS, markup that computes nothing, and the design-token tables. The six breakpoint widths of `src/design-system/tokens/breakpoints.ts` are inlined.
- The Button's variant colour tables are left out because they are only CSS. Every variant and size is still covered, because the datatypes are closed and the matches are exhaustive.
- Case mapping covers ASCII letters only. Accented Portuguese letters are left unchanged by `ToLower` and `ToUpper`.
- Timers are left out: the 500 ms simulated load and the 2 s reset of the copy confirmation. They become explicit events: `StartLoading`/`FinishLoading`/`FailLoading` and `CopyTimerElapsed`.
- Browser and environment calls become parameters or small classes:
  - `matchMedia` becomes the `hasMatchMedia`/`prefersDark` flags and the `Environment` function;
  - whether the clipboard write succeeds becomes a boolean;
  - the element a mousedown lands on becomes a `ClickTarget`;
  - the container's focusable elements become a sequence of element identities.
- Routing and navigation are not modelled; the redirect is the predicate `ShouldRedirect`. The route table in src/routes/AppRoutes.tsx:17-20 has no `/dica/:id` route, so `TipDetailPage.CardLinksResolve` states only what the detail page's lookup returns, not that the browser reaches that page.
- `console.error` on a failed copy is not modelled.
- Dates are kept as their ISO strings.
- `MediaQuery.ResolveQuery`: the source's test `breakpoints[query]` is also true for names inherited from `Object.prototype`, such as `toString`. The model treats only the six own keys as breakpoints.
- `FocusTrap.Trap.KeyDown`: when the handler does not prevent the default, the browser's own tab order moves focus. That movement is outside the model; focus is left where the handler left it.
- `FocusTrap.Trap.constructor`: `document.activeElement` is taken to be always an element, never `null`.
- `ThemeContext.ThemeProvider.constructor`: the announcement region is a parameter that may be absent, although the provider renders it itself.
- The context's default value outside any provider, which holds no-op setters, is not modelled.

## Findings

| source | as written | input that shows it | evidently intended | confidence | as-written member | corrected member |
|---|---|---|---|---|---|---|
| src/components/common/ThemeToggle.tsx:47-56 | the toggle's label names the next theme with a two-theme switch (`dark` → "claro", default → "escuro") | theme `dark`: the label says "Alternar para tema claro", but the click moves to high contrast; theme `high-contrast`: the label says "escuro", but the click moves to light | the label names the successor `toggleTheme` sets, as the header's button does | high (not executed) | ThemeToggle.LabelMatchesToggleOnlyFromLight | ThemeToggle.CorrectedNextThemeName |
| src/pages/HomePage.tsx:85 | the home page calls `useTips()` with no initial category and never reads `?category=`, yet each card on the categories page links to `/?category=<name>` (src/pages/CategoriesPage.tsx:161) | the Forms card's link `/?category=Forms`: the page lists every tip, including the HTML one | the card's category is preselected, so only that category's tips are listed | medium (not executed) | HomePage.CategoryLinkIgnored | HomePage.CategoryFromUrl |
