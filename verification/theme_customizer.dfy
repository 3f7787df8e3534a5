/**
 * The theme customizer: the palette and font catalogs, the layout advisor, the custom
 * primary colour, which catalog entry is highlighted, and the component's event handlers.
 */
module ThemeCustomizer {
  import opened ThemeContext

  // ---------------------------------------------------------------- catalogs

  const ColorPalettes: seq<Theme> := [
    Theme("Default Purple", "262 83% 74%", "240 5.9% 10%", "240 4.8% 95.9%", "0 0% 100%", "240 10% 3.9%"),
    Theme("Ocean Blue", "201 96% 32%", "200 98% 39%", "199 89% 48%", "0 0% 100%", "224 71% 4%"),
    Theme("Forest Green", "142 76% 36%", "143 64% 24%", "120 100% 93%", "0 0% 100%", "120 100% 9%"),
    Theme("Sunset Orange", "12 83% 55%", "22 100% 51%", "35 100% 91%", "0 0% 100%", "24 9% 10%"),
    Theme("Dark Mode", "262 83% 74%", "240 3.7% 15.9%", "240 3.7% 15.9%", "240 10% 3.9%", "0 0% 98%")
  ]

  const FontPairings: seq<FontPairing> := [
    FontPairing("Default", "SF Pro Display, Inter, sans-serif", "Inter, sans-serif"),
    FontPairing("Classic", "Georgia, serif", "Arial, sans-serif"),
    FontPairing("Modern", "Montserrat, sans-serif", "Open Sans, sans-serif"),
    FontPairing("Elegant", "Playfair Display, serif", "Lato, sans-serif"),
    FontPairing("Technical", "Roboto Mono, monospace", "Roboto, sans-serif")
  ]

  /** The store's defaults are the first entries of the two catalogs, field for field. */
  lemma DefaultsAreFirstEntries()
    ensures ColorPalettes[0] == DefaultTheme
    ensures FontPairings[0] == DefaultFontPairing
  {
  }

  lemma PaletteNamesDistinct()
    ensures forall i, j :: 0 <= i < j < |ColorPalettes| ==> ColorPalettes[i].name != ColorPalettes[j].name
  {
  }

  lemma FontPairingNamesDistinct()
    ensures forall i, j :: 0 <= i < j < |FontPairings| ==> FontPairings[i].name != FontPairings[j].name
  {
  }

  // ---------------------------------------------------------------- layout advisor

  datatype LayoutSuggestion = LayoutSuggestion(name: string, description: string, suitable: bool, preview: string)

  /** The five layout templates, each flagged from the palette name and the font-pairing name alone. */
  function SuggestLayouts(colorPalette: Theme, fontPairing: FontPairing): (r: seq<LayoutSuggestion>)
    ensures |r| == 5
    ensures r[0].name == "Minimalist" && r[1].name == "Magazine" && r[2].name == "Dashboard"
    ensures r[3].name == "Portfolio" && r[4].name == "Blog"
    ensures r[0].suitable && r[4].suitable
    ensures r[1].suitable <==> fontPairing.name in {"Elegant", "Classic"}
    ensures r[2].suitable <==> fontPairing.name in {"Technical", "Modern"}
    ensures r[3].suitable <==> colorPalette.name in {"Ocean Blue", "Sunset Orange"}
  {
    [
      LayoutSuggestion(
        "Minimalist", "Clean, spacious layout with focus on content",
        true,
        "grid grid-cols-1 gap-8 max-w-4xl mx-auto"),
      LayoutSuggestion(
        "Magazine", "Multi-column layout with varied content blocks",
        fontPairing.name == "Elegant" || fontPairing.name == "Classic",
        "grid grid-cols-12 gap-4"),
      LayoutSuggestion(
        "Dashboard", "Data-focused layout with cards and widgets",
        fontPairing.name == "Technical" || fontPairing.name == "Modern",
        "grid grid-cols-1 md:grid-cols-2 lg:grid-cols-3 gap-4"),
      LayoutSuggestion(
        "Portfolio", "Showcase-style layout with large visuals",
        colorPalette.name == "Ocean Blue" || colorPalette.name == "Sunset Orange",
        "grid grid-cols-1 md:grid-cols-2 gap-6 md:gap-8"),
      LayoutSuggestion(
        "Blog", "Content-first layout optimized for reading",
        true,
        "max-w-3xl mx-auto space-y-8")
    ]
  }

  /** Names, descriptions and previews never depend on the inputs; only the flags do. */
  lemma TemplatesAreFixed(p1: Theme, f1: FontPairing, p2: Theme, f2: FontPairing)
    ensures var r1, r2 := SuggestLayouts(p1, f1), SuggestLayouts(p2, f2);
      forall i :: 0 <= i < 5 ==>
        r1[i].name == r2[i].name && r1[i].description == r2[i].description && r1[i].preview == r2[i].preview
  {
  }

  /** The suggestions depend on the palette and the font pairing only through their names. */
  lemma SuggestionsDependOnNamesOnly(p1: Theme, f1: FontPairing, p2: Theme, f2: FontPairing)
    requires p1.name == p2.name && f1.name == f2.name
    ensures SuggestLayouts(p1, f1) == SuggestLayouts(p2, f2)
  {
  }

  /** Magazine and Dashboard are never recommended together. */
  lemma MagazineAndDashboardExclusive(p: Theme, f: FontPairing)
    ensures !(SuggestLayouts(p, f)[1].suitable && SuggestLayouts(p, f)[2].suitable)
  {
  }

  /** A name the rule table does not mention only switches the conditional templates off. */
  lemma UnknownNamesAreUnsuitable(p: Theme, f: FontPairing)
    requires f.name !in {"Elegant", "Classic", "Technical", "Modern"}
    requires p.name !in {"Ocean Blue", "Sunset Orange"}
    ensures forall i :: 0 <= i < 5 ==> (SuggestLayouts(p, f)[i].suitable <==> i == 0 || i == 4)
  {
  }

  /**
   * Over the catalogs, every font pairing except "Default" recommends exactly one of
   * Magazine and Dashboard, and Portfolio is recommended for palettes 1 and 3.
   */
  lemma CatalogSuggestions(i: nat, j: nat)
    requires i < |ColorPalettes| && j < |FontPairings|
    ensures var r := SuggestLayouts(ColorPalettes[i], FontPairings[j]);
      && (r[1].suitable != r[2].suitable <==> j != 0)
      && (r[3].suitable <==> i == 1 || i == 3)
  {
  }

  // ---------------------------------------------------------------- custom primary colour

  /** The theme `applyCustomColor` installs: the active theme renamed "Custom" with the typed primary. */
  function CustomColorTheme(activeTheme: Theme, customPrimary: string): (r: Theme)
    ensures r.name == "Custom" && r.primary == customPrimary
    ensures r.secondary == activeTheme.secondary && r.accent == activeTheme.accent
    ensures r.background == activeTheme.background && r.foreground == activeTheme.foreground
  {
    activeTheme.(name := "Custom", primary := customPrimary)
  }

  lemma CustomColorIdempotent(activeTheme: Theme, customPrimary: string)
    ensures CustomColorTheme(CustomColorTheme(activeTheme, customPrimary), customPrimary)
            == CustomColorTheme(activeTheme, customPrimary)
  {
  }

  // ---------------------------------------------------------------- highlighting

  /** A catalog entry is highlighted when its name is the active name. */
  predicate IsHighlighted(activeName: string, entryName: string)
  {
    activeName == entryName
  }

  /** Which palette cards are highlighted, in catalog order: at most one, and none after a custom colour. */
  function PaletteHighlights(activeTheme: Theme): (r: seq<bool>)
    ensures |r| == |ColorPalettes|
    ensures forall i :: 0 <= i < |r| ==> (r[i] <==> IsHighlighted(activeTheme.name, ColorPalettes[i].name))
    ensures forall i, j :: 0 <= i < |r| && 0 <= j < |r| && r[i] && r[j] ==> i == j
  {
    PaletteNamesDistinct();
    seq(|ColorPalettes|, i requires 0 <= i < |ColorPalettes| => IsHighlighted(activeTheme.name, ColorPalettes[i].name))
  }

  /** Which font-pairing cards are highlighted, in catalog order: at most one. */
  function FontPairingHighlights(activeFontPairing: FontPairing): (r: seq<bool>)
    ensures |r| == |FontPairings|
    ensures forall i :: 0 <= i < |r| ==> (r[i] <==> IsHighlighted(activeFontPairing.name, FontPairings[i].name))
    ensures forall i, j :: 0 <= i < |r| && 0 <= j < |r| && r[i] && r[j] ==> i == j
  {
    FontPairingNamesDistinct();
    seq(|FontPairings|, i requires 0 <= i < |FontPairings| => IsHighlighted(activeFontPairing.name, FontPairings[i].name))
  }

  /** Selecting catalog palette `i` highlights exactly card `i`. */
  lemma SelectedPaletteHighlighted(i: nat)
    requires i < |ColorPalettes|
    ensures forall j :: 0 <= j < |ColorPalettes| ==> (PaletteHighlights(ColorPalettes[i])[j] <==> j == i)
  {
  }

  /** Selecting catalog font pairing `i` highlights exactly card `i`. */
  lemma SelectedFontPairingHighlighted(i: nat)
    requires i < |FontPairings|
    ensures forall j :: 0 <= j < |FontPairings| ==> (FontPairingHighlights(FontPairings[i])[j] <==> j == i)
  {
  }

  /** No catalog palette is called "Custom", so after a custom colour no palette card is highlighted. */
  lemma CustomColorHighlightsNothing(activeTheme: Theme, customPrimary: string)
    ensures forall j :: 0 <= j < |ColorPalettes| ==> !PaletteHighlights(CustomColorTheme(activeTheme, customPrimary))[j]
  {
  }

  // ---------------------------------------------------------------- the component

  /** The customizer component bound to the theme store it edits. */
  class Customizer {
    const store: ThemeProvider
    /** The text of the custom primary colour input. */
    var customPrimary: string
    /** The layout suggestions on display. */
    var suggestedLayouts: seq<LayoutSuggestion>

    /** The suggestions on display are those for the store's current theme and fonts. */
    ghost predicate Valid()
      reads this, store
    {
      suggestedLayouts == SuggestLayouts(store.theme, store.fontPairing)
    }

    /** Mounting the component: the input starts at the active primary, the suggestions are computed. */
    constructor (store: ThemeProvider)
      ensures this.store == store && Valid()
      ensures customPrimary == store.theme.primary
    {
      this.store := store;
      customPrimary := store.theme.primary;
      suggestedLayouts := SuggestLayouts(store.theme, store.fontPairing);
    }

    /** A click on a palette card: the palette becomes the active theme; nothing is applied or stored. */
    method HandleColorPaletteSelect(palette: Theme)
      modifies this, store
      ensures store.theme == palette
      ensures store.fontPairing == old(store.fontPairing) && store.darkMode == old(store.darkMode)
      ensures customPrimary == old(customPrimary) && Valid()
      ensures unchanged(store.doc) && unchanged(store.storage)
    {
      store.SetTheme(palette);
      suggestedLayouts := SuggestLayouts(store.theme, store.fontPairing);
    }

    /** A click on a font-pairing card: the pairing becomes active; nothing is applied or stored. */
    method HandleFontPairingSelect(pairing: FontPairing)
      modifies this, store
      ensures store.fontPairing == pairing
      ensures store.theme == old(store.theme) && store.darkMode == old(store.darkMode)
      ensures customPrimary == old(customPrimary) && Valid()
      ensures unchanged(store.doc) && unchanged(store.storage)
    {
      store.SetFontPairing(pairing);
      suggestedLayouts := SuggestLayouts(store.theme, store.fontPairing);
    }

    /** Typing in the custom colour input: the text is kept as typed, unchecked. */
    method HandleCustomColorChange(value: string)
      requires Valid()
      modifies this
      ensures customPrimary == value && suggestedLayouts == old(suggestedLayouts) && Valid()
    {
      customPrimary := value;
    }

    /** The custom colour's Apply button: the active theme becomes the "Custom" override. */
    method ApplyCustomColor()
      modifies this, store
      ensures store.theme == CustomColorTheme(old(store.theme), customPrimary)
      ensures store.fontPairing == old(store.fontPairing) && store.darkMode == old(store.darkMode)
      ensures customPrimary == old(customPrimary) && Valid()
      ensures unchanged(store.doc) && unchanged(store.storage)
    {
      store.SetTheme(CustomColorTheme(store.theme, customPrimary));
      suggestedLayouts := SuggestLayouts(store.theme, store.fontPairing);
    }

    /** The "Apply Theme Changes" button: the store pushes its state to the document and storage. */
    method ApplyThemeChanges()
      requires Valid()
      modifies store.doc, store.storage
      ensures Valid()
      ensures store.doc.rootStyle == StyleAfterApply(old(store.doc.rootStyle), store.theme, store.darkMode)
      ensures store.doc.head == HeadAfterApply(old(store.doc.head), store.fontPairing)
      ensures store.doc.rootClasses == old(store.doc.rootClasses)
      ensures store.storage.items == StorageAfterApply(old(store.storage.items), store.theme, store.fontPairing, store.darkMode)
    {
      store.ApplyTheme();
    }
  }
}
