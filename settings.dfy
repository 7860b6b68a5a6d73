/**
 * The store settings page: the nested settings record and its one-key update, the merge of
 * the appearance values kept in browser storage, and the choice of the theme class on the
 * document root.
 */
module Settings {
  import opened Wrappers

  /** A setting's value; `Undefined` is what reading an absent key gives. */
  datatype Value = Text(s: string) | Flag(b: bool) | Number(n: int) | Undefined

  /** One category of settings, and the whole record by category. */
  type Section = map<string, Value>
  type Record = map<string, Section>

  const InitialSettings: Record := map[
    "general" := map[
      "siteName" := Text("SkinteliCa"), "siteDescription" := Text("Premium Skincare Products"),
      "contactEmail" := Text("info@skintelica.com"), "contactPhone" := Text("+91 98765 43210"),
      "address" := Text("Mumbai, India"), "currency" := Text("INR"), "timezone" := Text("Asia/Kolkata")],
    "notifications" := map[
      "emailNotifications" := Flag(true), "orderNotifications" := Flag(true),
      "inventoryAlerts" := Flag(true), "customerMessages" := Flag(true), "marketingEmails" := Flag(false)],
    "security" := map[
      "twoFactorAuth" := Flag(false), "sessionTimeout" := Number(30), "passwordExpiry" := Number(90),
      "loginAttempts" := Number(5)],
    "appearance" := map[
      "theme" := Text("light"), "primaryColor" := Text("#ec4899"), "secondaryColor" := Text("#8b5cf6"),
      "logoUrl" := Text("")],
    "shipping" := map[
      "freeShippingThreshold" := Number(2000), "standardShippingRate" := Number(99),
      "expressShippingRate" := Number(199), "internationalShipping" := Flag(false)],
    "payment" := map[
      "razorpayEnabled" := Flag(true), "stripeEnabled" := Flag(false), "paypalEnabled" := Flag(false),
      "codEnabled" := Flag(true)]]

  /** `{...section}` of a category: an absent category spreads as nothing. */
  function SectionOf(settings: Record, category: string): Section {
    if category in settings then settings[category] else map[]
  }

  /** `section[key]`. */
  function Lookup(section: Section, key: string): Value {
    if key in section then section[key] else Undefined
  }

  /** `handleSettingChange(category, key, value)`, and `updateSetting`, which has the same
      body: the one key of the one category takes the value. */
  function SettingChange(settings: Record, category: string, key: string, value: Value): (r: Record)
    ensures category in r && key in r[category] && r[category][key] == value
  {
    settings[category := SectionOf(settings, category)[key := value]]
  }

  /** Every other key of the category, and every other category, keeps its value. */
  lemma SettingChangeFrame(settings: Record, category: string, key: string, value: Value)
    ensures var r := SettingChange(settings, category, key, value);
      && (forall c :: c != category ==> (c in r <==> c in settings) && (c in r ==> r[c] == settings[c]))
      && (forall k :: k != key ==> Lookup(r[category], k) == Lookup(SectionOf(settings, category), k))
      && r.Keys == settings.Keys + {category}
  {
  }

  /** Changes to two different keys can be made in either order. */
  lemma SettingChangesCommute(settings: Record, c1: string, k1: string, v1: Value, c2: string, k2: string, v2: Value)
    requires c1 != c2 || k1 != k2
    ensures SettingChange(SettingChange(settings, c1, k1, v1), c2, k2, v2)
         == SettingChange(SettingChange(settings, c2, k2, v2), c1, k1, v1)
  {
    var a := SettingChange(SettingChange(settings, c1, k1, v1), c2, k2, v2);
    var b := SettingChange(SettingChange(settings, c2, k2, v2), c1, k1, v1);
    assert a.Keys == b.Keys;
    forall c | c in a ensures a[c] == b[c] {
      if c == c1 && c == c2 {
        assert a[c].Keys == b[c].Keys;
      }
    }
  }

  /** A later change of the same key overrides an earlier one. */
  lemma SettingChangeOverrides(settings: Record, category: string, key: string, v1: Value, v2: Value)
    ensures SettingChange(SettingChange(settings, category, key, v1), category, key, v2)
         == SettingChange(settings, category, key, v2)
  {
    var a := SettingChange(SettingChange(settings, category, key, v1), category, key, v2);
    var b := SettingChange(settings, category, key, v2);
    assert a[category] == b[category];
  }

  /** A stored string is truthy when it exists and is not empty. */
  predicate Truthy(stored: Option<string>) {
    stored.Some? && stored.value != ""
  }

  /** `stored || previous`. */
  function Prefer(stored: Option<string>, previous: Value): Value {
    if Truthy(stored) then Text(stored.value) else previous
  }

  /** Some stored appearance value is truthy. */
  predicate AnyStored(theme: Option<string>, primary: Option<string>, secondary: Option<string>) {
    Truthy(theme) || Truthy(primary) || Truthy(secondary)
  }

  /** Every stored appearance value is truthy. */
  predicate AllStored(theme: Option<string>, primary: Option<string>, secondary: Option<string>) {
    Truthy(theme) && Truthy(primary) && Truthy(secondary)
  }

  /** The mount effect that reads `theme`, `primaryColor` and `secondaryColor` from storage. It
      changes nothing unless one of them is truthy; then each takes its stored value when that
      is truthy and keeps the previous one otherwise. Without an appearance category the
      spread of `prev.appearance` adds nothing, and `prev.appearance.X` is read only for a
      value that is not truthy, where it throws (`None`); when all three are truthy nothing is
      read and the category is built from them. */
  function MergeStoredAppearance(settings: Record, theme: Option<string>, primary: Option<string>, secondary: Option<string>): (r: Option<Record>)
    ensures r.None? <==>
      AnyStored(theme, primary, secondary) && "appearance" !in settings && !AllStored(theme, primary, secondary)
    ensures r.Some? ==> r.value.Keys == if AnyStored(theme, primary, secondary) then settings.Keys + {"appearance"} else settings.Keys
    ensures r.Some? ==> forall c :: c in settings && c != "appearance" ==> r.value[c] == settings[c]
  {
    if !AnyStored(theme, primary, secondary) then Some(settings)
    else if "appearance" !in settings && !AllStored(theme, primary, secondary) then None
    else
      var prev := SectionOf(settings, "appearance");
      Some(settings["appearance" := prev[
        "theme" := Prefer(theme, Lookup(prev, "theme"))][
        "primaryColor" := Prefer(primary, Lookup(prev, "primaryColor"))][
        "secondaryColor" := Prefer(secondary, Lookup(prev, "secondaryColor"))]])
  }

  /** The merge's effect: nothing without a truthy stored value; otherwise the three appearance
      keys are each the stored value or the previous one, and nothing else changes. */
  lemma MergeStoredAppearanceEffect(settings: Record, theme: Option<string>, primary: Option<string>, secondary: Option<string>)
    ensures !AnyStored(theme, primary, secondary) ==>
      MergeStoredAppearance(settings, theme, primary, secondary) == Some(settings)
    ensures MergeStoredAppearance(settings, theme, primary, secondary).None? <==>
      AnyStored(theme, primary, secondary) && "appearance" !in settings && !AllStored(theme, primary, secondary)
    ensures var r := MergeStoredAppearance(settings, theme, primary, secondary);
      var prev := SectionOf(settings, "appearance");
      r.Some? && AnyStored(theme, primary, secondary) ==>
        && "appearance" in r.value
        && Lookup(r.value["appearance"], "theme") == Prefer(theme, Lookup(prev, "theme"))
        && Lookup(r.value["appearance"], "primaryColor") == Prefer(primary, Lookup(prev, "primaryColor"))
        && Lookup(r.value["appearance"], "secondaryColor") == Prefer(secondary, Lookup(prev, "secondaryColor"))
        && (forall k :: k !in {"theme", "primaryColor", "secondaryColor"} ==>
              Lookup(r.value["appearance"], k) == Lookup(prev, k))
        && (forall c :: c != "appearance" ==> (c in r.value <==> c in settings) && (c in r.value ==> r.value[c] == settings[c]))
  {
  }

  /** Running the merge a second time with the same stored values changes nothing more. */
  lemma MergeStoredAppearanceIdempotent(settings: Record, theme: Option<string>, primary: Option<string>, secondary: Option<string>)
    requires MergeStoredAppearance(settings, theme, primary, secondary).Some?
    ensures var once := MergeStoredAppearance(settings, theme, primary, secondary).value;
      MergeStoredAppearance(once, theme, primary, secondary) == Some(once)
  {
    var once := MergeStoredAppearance(settings, theme, primary, secondary).value;
    if AnyStored(theme, primary, secondary) {
      var app := once["appearance"];
      assert SectionOf(once, "appearance") == app;
      assert Lookup(app, "theme") == Prefer(theme, Lookup(app, "theme"));
      assert Lookup(app, "primaryColor") == Prefer(primary, Lookup(app, "primaryColor"));
      assert Lookup(app, "secondaryColor") == Prefer(secondary, Lookup(app, "secondaryColor"));
      assert app["theme" := app["theme"]]["primaryColor" := app["primaryColor"]]["secondaryColor" := app["secondaryColor"]] == app;
      assert once["appearance" := app] == once;
    }
  }

  /** With all three values stored and no appearance category, the merge does not throw: the
      category is made of the three stored values alone. */
  lemma StoredAppearanceWithoutCategory(settings: Record, theme: string, primary: string, secondary: string)
    requires "appearance" !in settings && theme != "" && primary != "" && secondary != ""
    ensures MergeStoredAppearance(settings, Some(theme), Some(primary), Some(secondary)) ==
      Some(settings["appearance" := map["theme" := Text(theme), "primaryColor" := Text(primary), "secondaryColor" := Text(secondary)]])
  {
  }

  /** The characters a class token may not contain (ASCII white space). */
  predicate IsTokenSpace(c: char) {
    c == ' ' || c == '\t' || c == '\n' || c == '\r' || c == '\U{000C}'
  }

  /** The class `applyAppearanceSettings` adds: for 'auto' the preferred scheme, otherwise the
      theme itself. */
  function ThemeClass(theme: string, prefersDark: bool): (token: string)
    ensures theme in {"light", "dark"} ==> token == theme
    ensures theme == "auto" ==> token == (if prefersDark then "dark" else "light")
    ensures theme != "auto" ==> token == theme
  {
    if theme == "auto" then (if prefersDark then "dark" else "light") else theme
  }

  /** The root's classes after `applyAppearanceSettings`: 'light' and 'dark' are removed, then
      the theme class is added. `classList.add` throws on an empty token or one holding white
      space, after the removal; the flag says whether the class was added. */
  function ApplyTheme(classes: set<string>, theme: string, prefersDark: bool): (r: (set<string>, bool))
    ensures r.0 * {"light", "dark"} <= {ThemeClass(theme, prefersDark)}
    ensures r.0 - {"light", "dark", ThemeClass(theme, prefersDark)} == classes - {"light", "dark", ThemeClass(theme, prefersDark)}
    ensures r.1 ==> ThemeClass(theme, prefersDark) in r.0
  {
    var token := ThemeClass(theme, prefersDark);
    var cleared := classes - {"light", "dark"};
    if token == "" || exists i | 0 <= i < |token| :: IsTokenSpace(token[i]) then (cleared, false)
    else (cleared + {token}, true)
  }

  /** For the three themes the page offers, the root ends with exactly one of 'light' and
      'dark' (the chosen one); every unrelated class is kept. */
  lemma ApplyThemeEffect(classes: set<string>, theme: string, prefersDark: bool)
    requires theme in {"light", "dark", "auto"}
    ensures var r := ApplyTheme(classes, theme, prefersDark);
      && r.1
      && r.0 * {"light", "dark"} == {ThemeClass(theme, prefersDark)}
      && r.0 - {"light", "dark"} == classes - {"light", "dark"}
  {
    var token := ThemeClass(theme, prefersDark);
    assert token == "light" || token == "dark";
    assert !IsTokenSpace(token[0]) && !IsTokenSpace(token[1]) && !IsTokenSpace(token[2]) && !IsTokenSpace(token[3]);
    if token == "light" {
      assert !IsTokenSpace(token[4]);
    }
  }

  /** Applying the appearance twice gives the classes applying it once gives. */
  lemma ApplyThemeIdempotent(classes: set<string>, theme: string, prefersDark: bool)
    ensures var once := ApplyTheme(classes, theme, prefersDark);
      ApplyTheme(once.0, theme, prefersDark) == once
  {
    var once := ApplyTheme(classes, theme, prefersDark);
    var token := ThemeClass(theme, prefersDark);
    var twice := ApplyTheme(once.0, theme, prefersDark);
    if !once.1 {
      assert once.0 - {"light", "dark"} == once.0;
    } else if token in {"light", "dark"} {
      assert once.0 - {"light", "dark"} == classes - {"light", "dark"};
    } else {
      assert once.0 - {"light", "dark"} == once.0;
    }
  }
}
