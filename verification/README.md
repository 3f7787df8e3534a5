# Freeto Design theme core, modelled in Dafny

Freeto Design is a design-system showcase. Its only logic is the theme customizer and the
theme store behind it:

- two fixed catalogs: five colour palettes and five font pairings;
- a layout advisor that flags five layout templates as recommended or not;
- a "Custom" override of the primary colour;
- a store that holds the active theme, font pairing and dark-mode flag. It pushes them to the
  document (CSS custom properties on the root element and one generated `<style>` block) and to
  `localStorage`, and restores them from `localStorage` at start-up.

This project models that core and proves what it promises.

| file | module | models |
|---|---|---|
| `wrappers.dfy` | `Wrappers` | `Option` |
| `json.dfy` | `Json` | `JSON.stringify` of a flat record of strings, and `JSON.parse` of an object with string members; round trip proved |
| `browser.dfy` | `Browser` | the document surface the store touches (root style map, root class set, head style elements, `getElementById`) and `localStorage` |
| `theme_context.dfy` | `ThemeContext` | theme and font-pairing records, defaults, storage keys, serialisation, what `applyThemeToDOM` does to each part of the document, start-up restoration, and the `ThemeProvider` class |
| `theme_customizer.dfy` | `ThemeCustomizer` | the catalogs, `suggestLayouts`, the custom colour, highlighting, and the `Customizer` component class with its handlers |

The store and the component change state in place, so they are classes whose methods state the
new state as functions of the old one. `StyleAfterApply`, `HeadAfterApply` and `StorageAfterApply`
are those functions. The lemmas beside them prove the promised properties:

- dark-mode isolation;
- one font style block;
- exactly three keys written;
- idempotence;
- the persistence round trip.

Three facts about the code shape the model:

- A stored value that is not valid JSON makes `JSON.parse` throw out of the start-up effect.
  The code has no per-key fallback to the default. The model therefore requires stored values
  to be well-formed (see "Left out").
- `toggleDarkMode` exists in the provider but is not part of the context value, so no component
  can reach it. It is modelled as `ThemeProvider.ToggleDarkMode`.
- The theme is not always a catalog entry or a "Custom" override: start-up accepts any stored
  theme, so the model states no such invariant.

## Model

| member | source | states |
|---|---|---|
| `Json.ParseCharsReadsBack` | freeto-design-garden-main/src/context/ThemeContext.tsx:124-125 | reading a string literal that `JSON.stringify` escaped yields the original string and stops right after the closing quote, for every string and any following text |
| `Json.ParseStringify` | freeto-design-garden-main/src/context/ThemeContext.tsx:124-125 | parsing what `JSON.stringify` wrote for a flat record of strings gives back the same members in the same order |
| `Json.Lookup` | freeto-design-garden-main/src/context/ThemeContext.tsx:66 | a property of a parsed object is found exactly when some member has that key, and its value is the value of such a member; that it is the last such member is `Json.LookupLastWins` |
| `Json.LookupLastWins` | freeto-design-garden-main/src/context/ThemeContext.tsx:66 | when a key is repeated, the value read is that of its last occurrence: no later member carries the key |
| `Json.Stringify` | freeto-design-garden-main/src/context/ThemeContext.tsx:124-125 | the compact `JSON.stringify` text of a flat record of strings: `{`, each member as `"key":"value"` with escapes, in record order, comma-separated, `}`; that it parses back is `Json.ParseStringify` |
| `Json.ParseObject` | freeto-design-garden-main/src/context/ThemeContext.tsx:78-79 | `JSON.parse` of an object whose members are all strings, with whitespace around tokens, giving the members in text order; any other text is rejected; that it inverts `Json.Stringify` is `Json.ParseStringify` |
| `ThemeContext.EncodeTheme` | freeto-design-garden-main/src/context/ThemeContext.tsx:124 | the stored theme text: one JSON object with the six fields in declaration order; decoding it is `ThemeContext.ThemeRoundTrip` |
| `ThemeContext.DecodeTheme` | freeto-design-garden-main/src/context/ThemeContext.tsx:66 | the parsed stored theme; which texts it accepts and what it reads is `ThemeContext.DecodeThemeExactly` |
| `ThemeContext.DecodeThemeExactly` | freeto-design-garden-main/src/context/ThemeContext.tsx:66 | a stored text decodes to a theme exactly when it parses as an object of string members having all six properties, and each field of the theme is the value read from its property |
| `ThemeContext.EncodeFontPairing` | freeto-design-garden-main/src/context/ThemeContext.tsx:125 | the stored font-pairing text: one JSON object with the three fields in declaration order; decoding it is `ThemeContext.FontPairingRoundTrip` |
| `ThemeContext.DecodeFontPairing` | freeto-design-garden-main/src/context/ThemeContext.tsx:69 | the parsed stored font pairing; which texts it accepts and what it reads is `ThemeContext.DecodeFontPairingExactly` |
| `ThemeContext.DecodeFontPairingExactly` | freeto-design-garden-main/src/context/ThemeContext.tsx:69 | a stored text decodes to a font pairing exactly when it parses as an object of string members having all three properties, and each field is the value read from its property |
| `ThemeContext.ThemeRoundTrip` | freeto-design-garden-main/src/context/ThemeContext.tsx:124 | the theme JSON stored under `freetoTheme` parses back (as at line 66) to the same theme |
| `ThemeContext.FontPairingRoundTrip` | freeto-design-garden-main/src/context/ThemeContext.tsx:125 | the font-pairing JSON stored under `freetoFontPairing` parses back (as at line 69) to the same pairing |
| `ThemeContext.DarkModeString` | freeto-design-garden-main/src/context/ThemeContext.tsx:126 | the stored dark-mode text is "true" exactly when the flag is on |
| `ThemeContext.StyleAfterApply` | freeto-design-garden-main/src/context/ThemeContext.tsx:94-102 | the root style after an apply; its properties are `ThemeContext.ApplyStyleEffect` and `ThemeContext.DarkModeIsolation` |
| `ThemeContext.ApplyStyleEffect` | freeto-design-garden-main/src/context/ThemeContext.tsx:94-102 | apply sets `--primary`, `--secondary` and `--accent` to the theme's values; it sets `--background` and `--foreground` only in light mode; every other property keeps its value |
| `ThemeContext.DarkModeIsolation` | freeto-design-garden-main/src/context/ThemeContext.tsx:98-102 | in dark mode, `--background` and `--foreground` keep their previous value (or stay absent), whatever the theme holds |
| `ThemeContext.FontCss` | freeto-design-garden-main/src/context/ThemeContext.tsx:114-121 | the text the font style element is given, character for character as the template at these lines produces it, with the pairing's body and display fonts in place |
| `ThemeContext.HeadAfterApply` | freeto-design-garden-main/src/context/ThemeContext.tsx:106-121 | the head after an apply; its properties are `ThemeContext.ApplyHeadEffect` and `ThemeContext.FontStyleBlockUnique` |
| `ThemeContext.ApplyHeadEffect` | freeto-design-garden-main/src/context/ThemeContext.tsx:106-121 | afterwards the first `custom-font-style` element holds rules binding `body` to the pairing's body font and `.font-display` to its display font; an existing element is rewritten in place, otherwise one is appended; no other element changes |
| `ThemeContext.FontStyleBlockUnique` | freeto-design-garden-main/src/context/ThemeContext.tsx:106-111 | apply adds a `custom-font-style` element only when there is none, so with at most one before there is exactly one after |
| `ThemeContext.StorageAfterApply` | freeto-design-garden-main/src/context/ThemeContext.tsx:124-126 | storage after an apply; its properties are `ThemeContext.ApplyStorageEffect` and `ThemeContext.PersistenceRoundTrip` |
| `ThemeContext.ApplyStorageEffect` | freeto-design-garden-main/src/context/ThemeContext.tsx:124-126 | apply writes exactly `freetoTheme`, `freetoFontPairing` and `freetoDarkMode`, with the serialised theme, the serialised pairing and "true"/"false"; other keys keep their values |
| `ThemeContext.ApplyIdempotent` | freeto-design-garden-main/src/context/ThemeContext.tsx:85-127 | applying the same theme, pairing and mode twice leaves the style properties, the head and storage as applying once |
| `ThemeContext.HydratedTheme` | freeto-design-garden-main/src/context/ThemeContext.tsx:61-66 | a missing or empty `freetoTheme` leaves the default theme; otherwise the theme is the parsed stored value |
| `ThemeContext.HydratedFontPairing` | freeto-design-garden-main/src/context/ThemeContext.tsx:62-70 | a missing or empty `freetoFontPairing` leaves the default pairing; otherwise the pairing is the parsed stored value |
| `ThemeContext.HydratedDarkMode` | freeto-design-garden-main/src/context/ThemeContext.tsx:71-74 | dark mode is restored as on exactly when the stored text is exactly "true" |
| `ThemeContext.PersistenceRoundTrip` | freeto-design-garden-main/src/context/ThemeContext.tsx:61-81 | restoring from the storage an apply left behind is well-defined and gives back the applied theme, pairing and dark-mode flag |
| `ThemeContext.ToggleTwiceRestores` | freeto-design-garden-main/src/context/ThemeContext.tsx:135-140 | helper for `ThemeContext.ToggleDarkModeTwice`: toggling a class twice restores the class set, and two writes of the dark-mode key leave the text of the original flag |
| `ThemeContext.ToggleDarkModeTwice` | freeto-design-garden-main/src/context/ThemeContext.tsx:135-140 | calling the provider's toggle twice leaves the flag, theme, pairing, class list, style and head as they were, and storage holds the original flag under `freetoDarkMode` |
| `ThemeContext.ThemeProvider.constructor` | freeto-design-garden-main/src/context/ThemeContext.tsx:55-57 | the state starts at the default theme, the default pairing and light mode |
| `ThemeContext.ThemeProvider.Mount` | freeto-design-garden-main/src/context/ThemeContext.tsx:53-82 | after mounting, the state is what storage held (defaults for missing or empty keys); that state has been applied; all three keys are stored; the `dark` class matches the flag if it was absent before |
| `ThemeContext.ThemeProvider.LoadSaved` | freeto-design-garden-main/src/context/ThemeContext.tsx:60-82 | the start-up effect: each present stored field replaces the state field; "true" turns dark mode and the `dark` class on; the restored values are then applied |
| `ThemeContext.ThemeProvider.RestoreSaved` | freeto-design-garden-main/src/context/ThemeContext.tsx:65-74 | the state updates of the start-up effect, field by field, from the three stored values |
| `ThemeContext.ThemeProvider.ApplyThemeToDom` | freeto-design-garden-main/src/context/ThemeContext.tsx:85-127 | root style, head and storage become `StyleAfterApply`, `HeadAfterApply` and `StorageAfterApply` of their old values; the class list is untouched |
| `ThemeContext.ThemeProvider.ApplyTheme` | freeto-design-garden-main/src/context/ThemeContext.tsx:130-132 | applies the current theme, pairing and dark-mode flag |
| `ThemeContext.ThemeProvider.SetTheme` | freeto-design-garden-main/src/context/ThemeContext.tsx:55 | replaces the theme only |
| `ThemeContext.ThemeProvider.SetFontPairing` | freeto-design-garden-main/src/context/ThemeContext.tsx:56 | replaces the font pairing only |
| `ThemeContext.ThemeProvider.ToggleDarkMode` | freeto-design-garden-main/src/context/ThemeContext.tsx:135-140 | negates the flag, toggles the `dark` class, rewrites only `freetoDarkMode`, leaves theme, pairing, style and head alone, and keeps the class in step with the flag |
| `Browser.FindById` | freeto-design-garden-main/src/context/ThemeContext.tsx:106 | `getElementById` finds the first element carrying the id, or reports that none does |
| `ThemeCustomizer.DefaultsAreFirstEntries` | freeto-design-garden-main/src/context/ThemeContext.tsx:29-42 | the store's default theme and pairing equal the first catalog entries, field for field |
| `ThemeCustomizer.PaletteNamesDistinct` | freeto-design-garden-main/src/components/ThemeCustomizer.tsx:14-55 | the five palette names are pairwise distinct |
| `ThemeCustomizer.FontPairingNamesDistinct` | freeto-design-garden-main/src/components/ThemeCustomizer.tsx:58-84 | the five font-pairing names are pairwise distinct |
| `ThemeCustomizer.SuggestLayouts` | freeto-design-garden-main/src/components/ThemeCustomizer.tsx:87-124 | always five templates: Minimalist, Magazine, Dashboard, Portfolio, Blog. Minimalist and Blog are always recommended. Magazine is recommended iff the pairing is Elegant or Classic, Dashboard iff Technical or Modern, Portfolio iff the palette is Ocean Blue or Sunset Orange |
| `ThemeCustomizer.TemplatesAreFixed` | freeto-design-garden-main/src/components/ThemeCustomizer.tsx:89-120 | names, descriptions and previews are the same for every input |
| `ThemeCustomizer.SuggestionsDependOnNamesOnly` | freeto-design-garden-main/src/components/ThemeCustomizer.tsx:99-111 | inputs with the same palette name and pairing name give identical suggestions |
| `ThemeCustomizer.MagazineAndDashboardExclusive` | freeto-design-garden-main/src/components/ThemeCustomizer.tsx:99-105 | Magazine and Dashboard are never both recommended |
| `ThemeCustomizer.UnknownNamesAreUnsuitable` | freeto-design-garden-main/src/components/ThemeCustomizer.tsx:93-117 | names the table does not mention leave only Minimalist and Blog recommended |
| `ThemeCustomizer.CatalogSuggestions` | freeto-design-garden-main/src/components/ThemeCustomizer.tsx:89-120 | over the catalogs, every pairing but Default recommends exactly one of Magazine and Dashboard, and Portfolio is recommended exactly for Ocean Blue and Sunset Orange |
| `ThemeCustomizer.CustomColorTheme` | freeto-design-garden-main/src/components/ThemeCustomizer.tsx:170-175 | the custom theme is named "Custom" and its primary is the typed text, unchecked; secondary, accent, background and foreground are the active theme's |
| `ThemeCustomizer.CustomColorIdempotent` | freeto-design-garden-main/src/components/ThemeCustomizer.tsx:170-175 | applying the same custom colour twice gives the same theme as once |
| `ThemeCustomizer.PaletteHighlights` | freeto-design-garden-main/src/components/ThemeCustomizer.tsx:220-239 | a palette card is highlighted iff its name is the active theme's name, and at most one card is |
| `ThemeCustomizer.FontPairingHighlights` | freeto-design-garden-main/src/components/ThemeCustomizer.tsx:269-282 | a font card is highlighted iff its name is the active pairing's name, and at most one card is |
| `ThemeCustomizer.SelectedPaletteHighlighted` | freeto-design-garden-main/src/components/ThemeCustomizer.tsx:223-226 | after choosing catalog palette i, card i and no other is highlighted |
| `ThemeCustomizer.SelectedFontPairingHighlighted` | freeto-design-garden-main/src/components/ThemeCustomizer.tsx:272-275 | after choosing catalog pairing i, card i and no other is highlighted |
| `ThemeCustomizer.CustomColorHighlightsNothing` | freeto-design-garden-main/src/components/ThemeCustomizer.tsx:223-225 | once a custom colour is applied, no palette card is highlighted |
| `ThemeCustomizer.Customizer.constructor` | freeto-design-garden-main/src/components/ThemeCustomizer.tsx:140-148 | the colour input starts at the active primary, and the suggestions shown are those for the active theme and pairing |
| `ThemeCustomizer.Customizer.HandleColorPaletteSelect` | freeto-design-garden-main/src/components/ThemeCustomizer.tsx:150-151 | the chosen palette becomes the active theme unchanged; the suggestions follow; the document and storage are untouched |
| `ThemeCustomizer.Customizer.HandleFontPairingSelect` | freeto-design-garden-main/src/components/ThemeCustomizer.tsx:158-159 | the chosen pairing becomes active unchanged; the suggestions follow; the document and storage are untouched |
| `ThemeCustomizer.Customizer.HandleCustomColorChange` | freeto-design-garden-main/src/components/ThemeCustomizer.tsx:166-168 | the input keeps the typed text as is |
| `ThemeCustomizer.Customizer.ApplyCustomColor` | freeto-design-garden-main/src/components/ThemeCustomizer.tsx:170-175 | the active theme becomes the "Custom" override of itself with the typed primary; nothing is applied or stored yet |
| `ThemeCustomizer.Customizer.ApplyThemeChanges` | freeto-design-garden-main/src/components/ThemeCustomizer.tsx:339 | the Apply button applies the store's current state to the document and to storage |

## Left out

- `ThemeContext.ThemeProvider.Mount` requires a present stored theme to be a JSON object whose members are all strings and that has all six theme properties, and the same of a stored font pairing with its three properties (`ThemeContext.Hydratable`, characterised by `ThemeContext.DecodeThemeExactly` and `ThemeContext.DecodeFontPairingExactly`). Stored text that `JSON.parse` rejects makes the source throw out of the start-up effect. `JSON.parse` accepts stored JSON of any other shape. The text `null` then throws a type error when a property is read: at `freeto-design-garden-main/src/context/ThemeContext.tsx:94` for a theme, or at line 116 for a font pairing, after the colours are already written. Any other value is carried along, with missing fields read as `undefined`. None of these paths is modelled. The theme and pairing it re-stores are written in declaration order with extra properties dropped. The source writes back the parsed object, keeping its member order and extra properties.
- `ThemeContext.ThemeProvider.LoadSaved` has the same requirement and the same write-back difference, for the same reasons.
- `ThemeContext.ThemeProvider.RestoreSaved` has the same requirement on the values read. The theme and pairing it restores are records, so extra stored properties and the stored member order are not kept.
- `ThemeContext.HydratedTheme` requires the same of a present stored theme. It restores a record, so extra properties and member order are not kept.
- `ThemeContext.HydratedFontPairing` requires the same of a present stored font pairing. It restores a record, so extra properties and member order are not kept.
- `Json.ParseObject` reads only JSON objects whose member values are strings. Any other JSON text that `JSON.parse` accepts is outside the model. A stored object that lacks one of the record's fields is treated as unparsable; in the source its fields would be `undefined`.
- `ThemeContext.DecodeTheme` and `ThemeContext.DecodeFontPairing` drop extra members of a stored object and do not keep member order. In the source those members ride along in the state and are stored again, in their order.
- Characters are Unicode scalar values. The lone-surrogate escapes of `JSON.stringify` therefore never arise, and the parser rejects a `\u` escape naming a surrogate, including one half of an escaped surrogate pair.
- React rendering, hook scheduling and effect timing are not modelled. The suggestions are recomputed within each handler, as soon as the active theme or pairing changes. The customizer's initial empty suggestion list, shown before its effect runs, is not modelled.
- The document is reduced to the root element's style properties, its class list, and the head's style elements held as values. `getElementById` searches only those elements. Real CSS and HSL semantics are not modelled, since the code never interprets colour strings.
- `localStorage` is modelled as a map that always accepts writes. Its exceptions (storage unavailable, quota exceeded) are not modelled.
- Toast notifications, clipboard writes and the selected tab are UI-only side effects with no logic, and are not modelled.
- `freeto-design-garden-main/src/pages/Index.tsx`, `Customize.tsx` and `NotFound.tsx` are static showcase markup, routing and prop wiring, and are not part of this model. That includes the separate local dark-mode toggle in `Index.tsx`.
