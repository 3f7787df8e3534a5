/**
 * The theme store: the current colour theme, font pairing and dark-mode flag, how they
 * are pushed to the document and to `localStorage`, and how they are restored at start-up.
 */
module ThemeContext {
  import opened Wrappers
  import Json
  import opened Browser

  /** A colour palette; the colours are "H S% L%" strings that are never interpreted. */
  datatype Theme = Theme(
    name: string,
    primary: string,
    secondary: string,
    accent: string,
    background: string,
    foreground: string)

  datatype FontPairing = FontPairing(name: string, display: string, body: string)

  const DefaultTheme := Theme(
    "Default Purple", "262 83% 74%", "240 5.9% 10%", "240 4.8% 95.9%", "0 0% 100%", "240 10% 3.9%")

  const DefaultFontPairing := FontPairing("Default", "SF Pro Display, Inter, sans-serif", "Inter, sans-serif")

  const ThemeKey := "freetoTheme"
  const FontPairingKey := "freetoFontPairing"
  const DarkModeKey := "freetoDarkMode"

  /** The id of the style element that carries the font rules. */
  const FontStyleId := "custom-font-style"
  const DarkClass := "dark"

  // ---------------------------------------------------------------- serialisation

  function ThemeFields(t: Theme): Json.Fields
  {
    [("name", t.name), ("primary", t.primary), ("secondary", t.secondary),
     ("accent", t.accent), ("background", t.background), ("foreground", t.foreground)]
  }

  /** The property names of a serialised theme, in declaration order. */
  const ThemeFieldNames := ["name", "primary", "secondary", "accent", "background", "foreground"]

  /** `JSON.stringify(theme)`: one object holding the six fields in declaration order. */
  function EncodeTheme(t: Theme): (r: string)
  {
    Json.Stringify(ThemeFields(t))
  }

  /**
   * `JSON.parse` of a stored theme, then the six property reads: defined exactly when the text is
   * an object of string members that has all six properties, each field being that property's value.
   */
  function DecodeTheme(text: string): (r: Option<Theme>)
  {
    match Json.ParseObject(text)
    case None => None
    case Some(fs) => ThemeFromFields(fs)
  }

  function ThemeFromFields(fs: Json.Fields): Option<Theme>
  {
    match (Json.Lookup(fs, "name"), Json.Lookup(fs, "primary"), Json.Lookup(fs, "secondary"),
           Json.Lookup(fs, "accent"), Json.Lookup(fs, "background"), Json.Lookup(fs, "foreground"))
    case (Some(n), Some(p), Some(s), Some(a), Some(b), Some(f)) => Some(Theme(n, p, s, a, b, f))
    case _ => None
  }

  lemma ThemeFieldsReadBack(t: Theme)
    ensures ThemeFromFields(ThemeFields(t)) == Some(t)
  {
    var fs := ThemeFields(t);
    assert "name" != "primary" && "primary" != "secondary" && "secondary" != "accent";
    assert "accent" != "background" && "background" != "foreground";
    assert "name" != "secondary" && "name" != "accent" && "name" != "background" && "name" != "foreground";
    assert "primary" != "accent" && "primary" != "background" && "primary" != "foreground";
    assert "secondary" != "background" && "secondary" != "foreground" && "accent" != "foreground";
    Json.LookupSingle(fs, 0);
    Json.LookupSingle(fs, 1);
    Json.LookupSingle(fs, 2);
    Json.LookupSingle(fs, 3);
    Json.LookupSingle(fs, 4);
    Json.LookupSingle(fs, 5);
  }

  /**
   * Which stored texts decode: exactly the objects of string members that have all six
   * properties; each field of the result is the value read from that property.
   */
  lemma DecodeThemeExactly(text: string)
    ensures DecodeTheme(text).Some? <==>
            Json.ParseObject(text).Some? && Json.HasAll(Json.ParseObject(text).value, ThemeFieldNames)
    ensures DecodeTheme(text).Some? ==> Json.ReadsAs(Json.ParseObject(text).value, ThemeFields(DecodeTheme(text).value))
  {
    match Json.ParseObject(text)
    case None =>
    case Some(fs) => ThemeFromFieldsExactly(fs);
  }

  lemma ThemeFromFieldsExactly(fs: Json.Fields)
    ensures ThemeFromFields(fs).Some? <==> Json.HasAll(fs, ThemeFieldNames)
    ensures ThemeFromFields(fs).Some? ==> Json.ReadsAs(fs, ThemeFields(ThemeFromFields(fs).value))
  {
    ThemeFromFieldsCases(fs);
    if ThemeFromFields(fs).Some? {
      forall k | k in ThemeFieldNames ensures Json.Lookup(fs, k).Some? {
        var i :| 0 <= i < |ThemeFieldNames| && ThemeFieldNames[i] == k;
      }
      var r := ThemeFields(ThemeFromFields(fs).value);
      forall i | 0 <= i < |r| ensures Json.Lookup(fs, r[i].0) == Some(r[i].1) {
      }
    } else {
      assert !Json.HasAll(fs, ThemeFieldNames) by {
        assert ThemeFieldNames[0] == "name" && ThemeFieldNames[1] == "primary" && ThemeFieldNames[2] == "secondary";
        assert ThemeFieldNames[3] == "accent" && ThemeFieldNames[4] == "background" && ThemeFieldNames[5] == "foreground";
      }
    }
  }

  lemma ThemeFromFieldsCases(fs: Json.Fields)
    ensures ThemeFromFields(fs).Some? <==>
            Json.Lookup(fs, "name").Some? && Json.Lookup(fs, "primary").Some? && Json.Lookup(fs, "secondary").Some? &&
            Json.Lookup(fs, "accent").Some? && Json.Lookup(fs, "background").Some? && Json.Lookup(fs, "foreground").Some?
    ensures ThemeFromFields(fs).Some? ==>
            ThemeFromFields(fs).value == Theme(Json.Lookup(fs, "name").value, Json.Lookup(fs, "primary").value,
                                               Json.Lookup(fs, "secondary").value, Json.Lookup(fs, "accent").value,
                                               Json.Lookup(fs, "background").value, Json.Lookup(fs, "foreground").value)
  {
  }

  /** What `JSON.stringify` stored for a theme, `JSON.parse` reads back as the same theme. */
  lemma ThemeRoundTrip(t: Theme)
    ensures DecodeTheme(EncodeTheme(t)) == Some(t)
  {
    Json.ParseStringify(ThemeFields(t));
    ThemeFieldsReadBack(t);
  }

  function FontPairingFields(f: FontPairing): Json.Fields
  {
    [("name", f.name), ("display", f.display), ("body", f.body)]
  }

  /** The property names of a serialised font pairing, in declaration order. */
  const FontPairingFieldNames := ["name", "display", "body"]

  /** `JSON.stringify(fontPairing)`: one object holding the three fields in declaration order. */
  function EncodeFontPairing(f: FontPairing): (r: string)
  {
    Json.Stringify(FontPairingFields(f))
  }

  /**
   * `JSON.parse` of a stored font pairing, then the three property reads: defined exactly when the
   * text is an object of string members that has all three properties, each field being that property's value.
   */
  function DecodeFontPairing(text: string): (r: Option<FontPairing>)
  {
    match Json.ParseObject(text)
    case None => None
    case Some(fs) => FontPairingFromFields(fs)
  }

  function FontPairingFromFields(fs: Json.Fields): Option<FontPairing>
  {
    match (Json.Lookup(fs, "name"), Json.Lookup(fs, "display"), Json.Lookup(fs, "body"))
    case (Some(n), Some(d), Some(b)) => Some(FontPairing(n, d, b))
    case _ => None
  }

  /**
   * Which stored texts decode: exactly the objects of string members that have all three
   * properties; each field of the result is the value read from that property.
   */
  lemma DecodeFontPairingExactly(text: string)
    ensures DecodeFontPairing(text).Some? <==>
            Json.ParseObject(text).Some? && Json.HasAll(Json.ParseObject(text).value, FontPairingFieldNames)
    ensures DecodeFontPairing(text).Some? ==>
            Json.ReadsAs(Json.ParseObject(text).value, FontPairingFields(DecodeFontPairing(text).value))
  {
    if Json.ParseObject(text).Some? {
      var fs := Json.ParseObject(text).value;
      assert Json.HasAll(fs, FontPairingFieldNames) <==>
             Json.Lookup(fs, "name").Some? && Json.Lookup(fs, "display").Some? && Json.Lookup(fs, "body").Some? by {
        assert FontPairingFieldNames[0] == "name" && FontPairingFieldNames[1] == "display";
        assert FontPairingFieldNames[2] == "body";
      }
    }
  }

  /** What `JSON.stringify` stored for a font pairing, `JSON.parse` reads back as the same pairing. */
  lemma FontPairingRoundTrip(f: FontPairing)
    ensures DecodeFontPairing(EncodeFontPairing(f)) == Some(f)
  {
    var fs := FontPairingFields(f);
    Json.ParseStringify(fs);
    assert "name" != "display" && "name" != "body" && "display" != "body";
    Json.LookupSingle(fs, 0);
    Json.LookupSingle(fs, 1);
    Json.LookupSingle(fs, 2);
  }

  /** `isDarkMode.toString()`. */
  function DarkModeString(b: bool): (s: string)
    ensures (s == "true") == b
  {
    if b then "true" else "false"
  }

  // ---------------------------------------------------------------- what applying does

  /** The root style after `applyThemeToDOM(t, _, dark)`. */
  function StyleAfterApply(style: map<string, string>, t: Theme, dark: bool): map<string, string>
  {
    var colours := style["--primary" := t.primary]["--secondary" := t.secondary]["--accent" := t.accent];
    if dark then colours else colours["--background" := t.background]["--foreground" := t.foreground]
  }

  /**
   * Applying always sets the primary, secondary and accent properties, sets background and
   * foreground only in light mode, and leaves every other property as it was.
   */
  lemma ApplyStyleEffect(style: map<string, string>, t: Theme, dark: bool)
    ensures var r := StyleAfterApply(style, t, dark);
      && r.Keys == style.Keys + {"--primary", "--secondary", "--accent"}
                   + (if dark then {} else {"--background", "--foreground"})
      && r["--primary"] == t.primary && r["--secondary"] == t.secondary && r["--accent"] == t.accent
      && (!dark ==> r["--background"] == t.background && r["--foreground"] == t.foreground)
      && (forall k ::
            (k in style && k !in {"--primary", "--secondary", "--accent"} && (dark || k !in {"--background", "--foreground"}))
            ==> r[k] == style[k])
  {
  }

  /** The text `applyThemeToDOM` writes into the font style element. */
  function FontCss(f: FontPairing): string
  {
    "\n      body {\n        font-family: " + f.body + ";\n      }\n      .font-display {\n        font-family: "
    + f.display + ";\n      }\n    "
  }

  /** The head after `applyThemeToDOM(_, f, _)`. */
  function HeadAfterApply(head: seq<StyleElement>, f: FontPairing): seq<StyleElement>
  {
    var block := StyleElement(FontStyleId, FontCss(f));
    match FindById(head, FontStyleId)
    case Some(i) => head[i := block]
    case None => head + [block]
  }

  /**
   * After applying, the first font style element holds the rules for `f`: the one that was
   * there, rewritten in place, or a new one appended to the head. No other element changes.
   */
  lemma ApplyHeadEffect(head: seq<StyleElement>, f: FontPairing)
    ensures var r := HeadAfterApply(head, f);
      && FindById(r, FontStyleId).Some?
      && r[FindById(r, FontStyleId).value] == StyleElement(FontStyleId, FontCss(f))
      && (FindById(head, FontStyleId).Some? ==> FindById(r, FontStyleId) == FindById(head, FontStyleId) && |r| == |head|)
      && (FindById(head, FontStyleId).None? ==> r == head + [StyleElement(FontStyleId, FontCss(f))])
      && (forall j :: 0 <= j < |head| && Some(j) != FindById(r, FontStyleId) ==> r[j] == head[j])
  {
    var r := HeadAfterApply(head, f);
    match FindById(head, FontStyleId)
    case Some(i) => FindByIdFirst(r, FontStyleId, i);
    case None => FindByIdFirst(r, FontStyleId, |head|);
  }

  /** `applyThemeToDOM` never adds a second font style element: it adds one only when there is none. */
  lemma FontStyleBlockUnique(head: seq<StyleElement>, f: FontPairing)
    ensures CountId(HeadAfterApply(head, f), FontStyleId) ==
            if CountId(head, FontStyleId) == 0 then 1 else CountId(head, FontStyleId)
    ensures CountId(head, FontStyleId) <= 1 ==> CountId(HeadAfterApply(head, f), FontStyleId) == 1
  {
    var block := StyleElement(FontStyleId, FontCss(f));
    CountIdZero(head, FontStyleId);
    match FindById(head, FontStyleId)
    case Some(i) =>
      CountIdReplace(head, i, block, FontStyleId);
    case None =>
      CountIdAppend(head, block, FontStyleId);
  }

  /** `localStorage` after `applyThemeToDOM(t, f, dark)`. */
  function StorageAfterApply(items: map<string, string>, t: Theme, f: FontPairing, dark: bool): map<string, string>
  {
    items[ThemeKey := EncodeTheme(t)][FontPairingKey := EncodeFontPairing(f)][DarkModeKey := DarkModeString(dark)]
  }

  /** Applying writes exactly the three keys, with the serialised theme, font pairing and mode. */
  lemma ApplyStorageEffect(items: map<string, string>, t: Theme, f: FontPairing, dark: bool)
    ensures var r := StorageAfterApply(items, t, f, dark);
      && r.Keys == items.Keys + {ThemeKey, FontPairingKey, DarkModeKey}
      && r[ThemeKey] == EncodeTheme(t) && r[FontPairingKey] == EncodeFontPairing(f)
      && r[DarkModeKey] == DarkModeString(dark)
      && (forall k :: (k in items && k !in {ThemeKey, FontPairingKey, DarkModeKey}) ==> r[k] == items[k])
  {
  }

  /** In dark mode the background and foreground properties keep whatever they held, whatever the theme says. */
  lemma DarkModeIsolation(style: map<string, string>, t: Theme)
    ensures var r := StyleAfterApply(style, t, true);
      && ("--background" in r <==> "--background" in style)
      && ("--foreground" in r <==> "--foreground" in style)
      && ("--background" in style ==> r["--background"] == style["--background"])
      && ("--foreground" in style ==> r["--foreground"] == style["--foreground"])
  {
  }

  /** Applying the same theme, fonts and mode a second time changes nothing further. */
  lemma ApplyIdempotent(style: map<string, string>, head: seq<StyleElement>, items: map<string, string>,
                        t: Theme, f: FontPairing, dark: bool)
    ensures StyleAfterApply(StyleAfterApply(style, t, dark), t, dark) == StyleAfterApply(style, t, dark)
    ensures HeadAfterApply(HeadAfterApply(head, f), f) == HeadAfterApply(head, f)
    ensures StorageAfterApply(StorageAfterApply(items, t, f, dark), t, f, dark) == StorageAfterApply(items, t, f, dark)
  {
    var h := HeadAfterApply(head, f);
    ApplyHeadEffect(head, f);
    assert h[FindById(h, FontStyleId).value := StyleElement(FontStyleId, FontCss(f))] == h;
  }

  // ---------------------------------------------------------------- start-up

  /** A stored value counts as present when it is neither missing nor the empty string. */
  predicate Truthy(v: Option<string>)
  {
    v.Some? && v.value != ""
  }

  /** Every stored theme and font pairing that start-up would parse is well-formed. */
  predicate Hydratable(items: map<string, string>)
  {
    && (Truthy(Get(items, ThemeKey)) ==> DecodeTheme(items[ThemeKey]).Some?)
    && (Truthy(Get(items, FontPairingKey)) ==> DecodeFontPairing(items[FontPairingKey]).Some?)
  }

  /** The theme start-up restores from storage. */
  function HydratedTheme(items: map<string, string>): (t: Theme)
    requires Hydratable(items)
    ensures !Truthy(Get(items, ThemeKey)) ==> t == DefaultTheme
    ensures Truthy(Get(items, ThemeKey)) ==> Some(t) == DecodeTheme(items[ThemeKey])
  {
    if Truthy(Get(items, ThemeKey)) then DecodeTheme(items[ThemeKey]).value else DefaultTheme
  }

  /** The font pairing start-up restores from storage. */
  function HydratedFontPairing(items: map<string, string>): (f: FontPairing)
    requires Hydratable(items)
    ensures !Truthy(Get(items, FontPairingKey)) ==> f == DefaultFontPairing
    ensures Truthy(Get(items, FontPairingKey)) ==> Some(f) == DecodeFontPairing(items[FontPairingKey])
  {
    if Truthy(Get(items, FontPairingKey)) then DecodeFontPairing(items[FontPairingKey]).value else DefaultFontPairing
  }

  /** The dark-mode flag start-up restores: on exactly when the stored text is "true". */
  function HydratedDarkMode(items: map<string, string>): (dark: bool)
    ensures dark <==> DarkModeKey in items && items[DarkModeKey] == "true"
  {
    Get(items, DarkModeKey) == Some("true")
  }

  /** Starting up from what an apply stored restores the applied theme, font pairing and mode. */
  lemma PersistenceRoundTrip(items: map<string, string>, t: Theme, f: FontPairing, dark: bool)
    ensures Hydratable(StorageAfterApply(items, t, f, dark))
    ensures HydratedTheme(StorageAfterApply(items, t, f, dark)) == t
    ensures HydratedFontPairing(StorageAfterApply(items, t, f, dark)) == f
    ensures HydratedDarkMode(StorageAfterApply(items, t, f, dark)) == dark
  {
    var s := StorageAfterApply(items, t, f, dark);
    ThemeRoundTrip(t);
    FontPairingRoundTrip(f);
    assert EncodeTheme(t) != "" && EncodeFontPairing(f) != "" by {
      assert EncodeTheme(t)[0] == '{' && EncodeFontPairing(f)[0] == '{';
    }
  }

  /** `darkMode` after toggling twice is back where it was; only the dark-mode key was written. */
  lemma ToggleTwiceRestores(items: map<string, string>, classes: set<string>, dark: bool)
    ensures Toggled(Toggled(classes, DarkClass), DarkClass) == classes
    ensures items[DarkModeKey := DarkModeString(!dark)][DarkModeKey := DarkModeString(!!dark)]
            == items[DarkModeKey := DarkModeString(dark)]
  {
  }

  // ---------------------------------------------------------------- the provider

  /** The single theme state and the operations of the theme context. */
  class ThemeProvider {
    var theme: Theme
    var fontPairing: FontPairing
    var darkMode: bool
    const doc: Document
    const storage: LocalStorage

    /** The root element carries the `dark` class exactly when dark mode is on. */
    ghost predicate DarkClassInSync()
      reads this, doc
    {
      (DarkClass in doc.rootClasses) == darkMode
    }

    /** The initial state of the provider, before its start-up effect has run. */
    constructor (doc: Document, storage: LocalStorage)
      ensures this.doc == doc && this.storage == storage
      ensures theme == DefaultTheme && fontPairing == DefaultFontPairing && !darkMode
    {
      this.doc := doc;
      this.storage := storage;
      theme := DefaultTheme;
      fontPairing := DefaultFontPairing;
      darkMode := false;
    }

    /** Mounting the provider: the initial state, then the start-up effect that loads the saved theme. */
    static method Mount(doc: Document, storage: LocalStorage) returns (p: ThemeProvider)
      requires Hydratable(storage.items)
      modifies doc, storage
      ensures fresh(p) && p.doc == doc && p.storage == storage
      ensures p.theme == HydratedTheme(old(storage.items))
      ensures p.fontPairing == HydratedFontPairing(old(storage.items))
      ensures p.darkMode == HydratedDarkMode(old(storage.items))
      ensures doc.rootStyle == StyleAfterApply(old(doc.rootStyle), p.theme, p.darkMode)
      ensures doc.head == HeadAfterApply(old(doc.head), p.fontPairing)
      ensures doc.rootClasses == old(doc.rootClasses) + (if p.darkMode then {DarkClass} else {})
      ensures storage.items == StorageAfterApply(old(storage.items), p.theme, p.fontPairing, p.darkMode)
      ensures DarkClass !in old(doc.rootClasses) ==> p.DarkClassInSync()
    {
      p := new ThemeProvider(doc, storage);
      p.LoadSaved();
    }

    /** The start-up effect: restore each saved field that is present, then apply what was restored. */
    method LoadSaved()
      requires Hydratable(storage.items)
      modifies this, doc, storage
      ensures theme == if Truthy(Get(old(storage.items), ThemeKey)) then HydratedTheme(old(storage.items)) else old(theme)
      ensures fontPairing ==
              if Truthy(Get(old(storage.items), FontPairingKey)) then HydratedFontPairing(old(storage.items)) else old(fontPairing)
      ensures darkMode == (HydratedDarkMode(old(storage.items)) || old(darkMode))
      ensures doc.rootClasses == old(doc.rootClasses) + (if HydratedDarkMode(old(storage.items)) then {DarkClass} else {})
      ensures doc.rootStyle == StyleAfterApply(old(doc.rootStyle), HydratedTheme(old(storage.items)), HydratedDarkMode(old(storage.items)))
      ensures doc.head == HeadAfterApply(old(doc.head), HydratedFontPairing(old(storage.items)))
      ensures storage.items == StorageAfterApply(old(storage.items), HydratedTheme(old(storage.items)),
                                                 HydratedFontPairing(old(storage.items)), HydratedDarkMode(old(storage.items)))
    {
      var savedTheme := storage.GetItem(ThemeKey);
      var savedFontPairing := storage.GetItem(FontPairingKey);
      var savedDarkMode := storage.GetItem(DarkModeKey);
      RestoreSaved(savedTheme, savedFontPairing, savedDarkMode);
      ApplyThemeToDom(
        if Truthy(savedTheme) then DecodeTheme(savedTheme.value).value else DefaultTheme,
        if Truthy(savedFontPairing) then DecodeFontPairing(savedFontPairing.value).value else DefaultFontPairing,
        savedDarkMode == Some("true"));
    }

    /** The state updates of the start-up effect, given the three values read from storage. */
    method RestoreSaved(savedTheme: Option<string>, savedFontPairing: Option<string>, savedDarkMode: Option<string>)
      requires Truthy(savedTheme) ==> DecodeTheme(savedTheme.value).Some?
      requires Truthy(savedFontPairing) ==> DecodeFontPairing(savedFontPairing.value).Some?
      modifies this, doc
      ensures theme == if Truthy(savedTheme) then DecodeTheme(savedTheme.value).value else old(theme)
      ensures fontPairing == if Truthy(savedFontPairing) then DecodeFontPairing(savedFontPairing.value).value else old(fontPairing)
      ensures darkMode == (savedDarkMode == Some("true") || old(darkMode))
      ensures doc.rootClasses == old(doc.rootClasses) + (if savedDarkMode == Some("true") then {DarkClass} else {})
      ensures doc.rootStyle == old(doc.rootStyle) && doc.head == old(doc.head)
    {
      if Truthy(savedTheme) {
        theme := DecodeTheme(savedTheme.value).value;
      }
      if Truthy(savedFontPairing) {
        fontPairing := DecodeFontPairing(savedFontPairing.value).value;
      }
      if savedDarkMode == Some("true") {
        darkMode := true;
        doc.ClassListAdd(DarkClass);
      }
    }

    /** `applyThemeToDOM`: colours, then the font style element, then the three storage keys. */
    method ApplyThemeToDom(currentTheme: Theme, currentFontPairing: FontPairing, isDarkMode: bool)
      modifies doc, storage
      ensures doc.rootStyle == StyleAfterApply(old(doc.rootStyle), currentTheme, isDarkMode)
      ensures doc.head == HeadAfterApply(old(doc.head), currentFontPairing)
      ensures doc.rootClasses == old(doc.rootClasses)
      ensures storage.items == StorageAfterApply(old(storage.items), currentTheme, currentFontPairing, isDarkMode)
    {
      doc.SetProperty("--primary", currentTheme.primary);
      doc.SetProperty("--secondary", currentTheme.secondary);
      doc.SetProperty("--accent", currentTheme.accent);

      if !isDarkMode {
        doc.SetProperty("--background", currentTheme.background);
        doc.SetProperty("--foreground", currentTheme.foreground);
      }
      assert doc.rootStyle == StyleAfterApply(old(doc.rootStyle), currentTheme, isDarkMode);

      var fontStyle := doc.GetElementById(FontStyleId);
      var index: nat;
      if fontStyle.None? {
        index := doc.AppendStyleElement(FontStyleId);
      } else {
        index := fontStyle.value;
      }
      doc.SetInnerHtml(index, FontCss(currentFontPairing));
      assert doc.head == HeadAfterApply(old(doc.head), currentFontPairing);

      storage.SetItem(ThemeKey, EncodeTheme(currentTheme));
      storage.SetItem(FontPairingKey, EncodeFontPairing(currentFontPairing));
      storage.SetItem(DarkModeKey, DarkModeString(isDarkMode));
    }

    /** `applyTheme`: push the current state to the document and to storage. */
    method ApplyTheme()
      modifies doc, storage
      ensures doc.rootStyle == StyleAfterApply(old(doc.rootStyle), theme, darkMode)
      ensures doc.head == HeadAfterApply(old(doc.head), fontPairing)
      ensures doc.rootClasses == old(doc.rootClasses)
      ensures storage.items == StorageAfterApply(old(storage.items), theme, fontPairing, darkMode)
    {
      ApplyThemeToDom(theme, fontPairing, darkMode);
    }

    /** `setTheme`. */
    method SetTheme(t: Theme)
      modifies this
      ensures theme == t && fontPairing == old(fontPairing) && darkMode == old(darkMode)
    {
      theme := t;
    }

    /** `setFontPairing`. */
    method SetFontPairing(f: FontPairing)
      modifies this
      ensures fontPairing == f && theme == old(theme) && darkMode == old(darkMode)
    {
      fontPairing := f;
    }

    /** `toggleDarkMode`: flip the flag and the `dark` class, and store only the new flag. */
    method ToggleDarkMode()
      modifies this, doc, storage
      ensures darkMode == !old(darkMode)
      ensures theme == old(theme) && fontPairing == old(fontPairing)
      ensures doc.rootClasses == Toggled(old(doc.rootClasses), DarkClass)
      ensures doc.rootStyle == old(doc.rootStyle) && doc.head == old(doc.head)
      ensures storage.items == old(storage.items)[DarkModeKey := DarkModeString(darkMode)]
      ensures old(DarkClassInSync()) ==> DarkClassInSync()
    {
      var newDarkMode := !darkMode;
      darkMode := newDarkMode;
      doc.ClassListToggle(DarkClass);
      storage.SetItem(DarkModeKey, DarkModeString(newDarkMode));
    }
  }

  /** Toggling dark mode twice restores the flag and the class list; storage holds the original flag. */
  method ToggleDarkModeTwice(p: ThemeProvider)
    modifies p, p.doc, p.storage
    ensures p.darkMode == old(p.darkMode) && p.theme == old(p.theme) && p.fontPairing == old(p.fontPairing)
    ensures p.doc.rootClasses == old(p.doc.rootClasses)
    ensures p.doc.rootStyle == old(p.doc.rootStyle) && p.doc.head == old(p.doc.head)
    ensures p.storage.items == old(p.storage.items)[DarkModeKey := DarkModeString(old(p.darkMode))]
  {
    p.ToggleDarkMode();
    p.ToggleDarkMode();
    ToggleTwiceRestores(old(p.storage.items), old(p.doc.rootClasses), old(p.darkMode));
  }
}
