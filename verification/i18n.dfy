/**
 * `I18n`: the translation bundles, the dot-path lookup `t`, and the locale
 * helpers every page uses.
 *
 * A bundle is an imported JSON object. The lookup descends with `k in value`,
 * which also sees inherited members such as `toString`; every inherited
 * member of a plain object is a function or `Object.prototype`, from which no
 * further walk ends at a string, so such a step is modelled as a miss.
 */
module I18n {
  import opened Wrappers
  import opened Text
  import Json

  /** A bundle value: a string, an object, or anything else (a number, a
      boolean, an array or null), which a dot-path treats as a dead end. */
  datatype TVal = TStr(s: string) | TObj(fields: map<string, TVal>) | TOther

  /** The three imported bundles. */
  datatype Bundles = Bundles(es: TVal, nl: TVal, de: TVal)

  const SupportedLocales: seq<string> := ["es", "nl", "de"]

  const DefaultLocale: string := "es"

  /** `isValidLocale`. */
  function IsValidLocale(s: string): (r: bool)
    ensures r <==> s == "es" || s == "nl" || s == "de"
  {
    s in SupportedLocales
  }

  /** `translations[locale] || translations.es`: the locale's bundle, or the
      Spanish one for a locale without a bundle. A name the translations
      object inherits (`constructor`, `__proto__`, ...) finds that member
      instead, a function or `Object.prototype`, below which no walk ends at
      a string; it is modelled as a dead end. */
  function GetTranslations(b: Bundles, locale: string): (r: TVal)
    ensures locale == "nl" ==> r == b.nl
    ensures locale == "de" ==> r == b.de
    ensures locale in Json.ObjectPrototypeNames ==> r == TOther
    ensures (!IsValidLocale(locale) && locale !in Json.ObjectPrototypeNames) || locale == "es" ==> r == b.es
  {
    if locale == "nl" then b.nl
    else if locale == "de" then b.de
    else if locale in Json.ObjectPrototypeNames then TOther
    else b.es
  }

  /** The value the segments lead to, if every step finds an own member of
      an object. */
  function Walk(v: TVal, keys: seq<string>): (r: Option<TVal>)
    ensures keys == [] ==> r == Some(v)
    ensures keys != [] && !v.TObj? ==> r.None?
  {
    if keys == [] then Some(v)
    else match v
      case TObj(f) => if keys[0] in f then Walk(f[keys[0]], keys[1..]) else None
      case _ => None
  }

  /** `t(key, locale)`: the string at the key's dot-path, or the key itself
      when a segment is missing or the value found is not a string. */
  function T(b: Bundles, key: string, locale: string): (r: string)
    ensures var w := Walk(GetTranslations(b, locale), Split(key, '.'));
            (w.Some? && w.value.TStr? ==> r == w.value.s) && (!(w.Some? && w.value.TStr?) ==> r == key)
  {
    match Walk(GetTranslations(b, locale), Split(key, '.'))
    case Some(TStr(s)) => s
    case _ => key
  }

  /** `detectLocaleFromPath`: the first path segment when it is a locale,
      else the default. */
  function DetectLocale(pathname: string): (r: string)
    ensures IsValidLocale(r)
  {
    var parts := Split(pathname, '/');
    if |parts| > 1 && IsValidLocale(parts[1]) then parts[1] else DefaultLocale
  }

  /** The per-locale tags of `localeConfig` that other code reads. */
  datatype LocaleTags = LocaleTags(hreflang: string, ogLocale: string, htmlLang: string)

  function LocaleConfig(locale: string): (r: LocaleTags)
    requires IsValidLocale(locale)
  {
    if locale == "es" then LocaleTags("es-ES", "es_ES", "es")
    else if locale == "nl" then LocaleTags("nl-NL", "nl_NL", "nl")
    else LocaleTags("de-DE", "de_DE", "de")
  }

  // ---------------------------------------------------------------- lemmas

  /** Walking a path is walking its prefix, then the rest from there. */
  lemma {:induction false} WalkAppend(v: TVal, a: seq<string>, b: seq<string>)
    ensures Walk(v, a + b) == (match Walk(v, a) case None => None case Some(w) => Walk(w, b))
  {
    if a != [] {
      assert (a + b)[1..] == a[1..] + b;
      if v.TObj? && a[0] in v.fields {
        WalkAppend(v.fields[a[0]], a[1..], b);
      }
    } else {
      assert a + b == b;
    }
  }

  /** A key with no '.' is a single lookup in the bundle. */
  lemma SingleSegment(b: Bundles, key: string, locale: string)
    requires '.' !in key
    ensures var v := GetTranslations(b, locale);
            T(b, key, locale) == if v.TObj? && key in v.fields && v.fields[key].TStr? then v.fields[key].s else key
  {
    assert Split(key, '.') == [key];
  }

  /** A two-segment key reads the nested member, as in `t('nav.home')`. */
  lemma TwoSegments(b: Bundles, section: string, name: string, locale: string)
    requires '.' !in section && '.' !in name
    ensures var v := GetTranslations(b, locale);
            T(b, section + "." + name, locale)
            == if v.TObj? && section in v.fields && v.fields[section].TObj? && name in v.fields[section].fields
                  && v.fields[section].fields[name].TStr?
               then v.fields[section].fields[name].s
               else section + "." + name
  {
    var key := section + "." + name;
    assert key == section + ['.'] + name;
    IndexOfAfter(section, '.', name);
    assert key[..|section|] == section;
    assert key[|section| + 1..] == name;
    assert Split(key, '.') == [section, name];
    var v := GetTranslations(b, locale);
    if v.TObj? && section in v.fields {
      assert Walk(v, [section, name]) == Walk(v.fields[section], [name]);
      var w := v.fields[section];
      if w.TObj? && name in w.fields {
        assert Walk(w, [name]) == Walk(w.fields[name], []);
      }
    }
  }

  /** The documented example `t('nav.home', 'es')`, a missing member and a
      key that names an object rather than a string. */
  lemma NavHomeExample(b: Bundles)
    requires b.es == TObj(map["nav" := TObj(map["home" := TStr("Inicio")])])
    ensures T(b, "nav.home", "es") == "Inicio"
    ensures T(b, "nav.menu", "es") == "nav.menu"
    ensures T(b, "nav", "es") == "nav"
  {
    assert '.' !in "nav" && '.' !in "home" && '.' !in "menu";
    assert "nav" + "." + "home" == "nav.home";
    assert "nav" + "." + "menu" == "nav.menu";
    TwoSegments(b, "nav", "home", "es");
    TwoSegments(b, "nav", "menu", "es");
    SingleSegment(b, "nav", "es");
  }

  /** The result of `t` is the key itself or a string the bundle holds. */
  lemma TResult(b: Bundles, key: string, locale: string)
    ensures T(b, key, locale) == key ||
            Walk(GetTranslations(b, locale), Split(key, '.')) == Some(TStr(T(b, key, locale)))
  {
  }

  /** Every locale that is not Dutch or German reads the Spanish bundle,
      except a name the translations object inherits, for which every key
      translates to itself. */
  lemma FallbackToSpanish(b: Bundles, key: string, locale: string)
    requires locale != "nl" && locale != "de"
    ensures locale !in Json.ObjectPrototypeNames ==> T(b, key, locale) == T(b, key, "es")
    ensures locale in Json.ObjectPrototypeNames ==> T(b, key, locale) == key
  {
  }

  /** The locale of "/" + l + rest is l when l is a locale and the path
      continues with a new segment or ends; a path with no locale segment
      gets the default. */
  lemma DetectLocaleOfPath(l: string, rest: string)
    requires rest == [] || rest[0] == '/'
    requires '/' !in l
    ensures IsValidLocale(l) ==> DetectLocale("/" + l + rest) == l
    ensures !IsValidLocale(l) ==> DetectLocale("/" + l + rest) == DefaultLocale
  {
    SecondSegment(l, rest);
  }

  /** An empty path has no second segment. */
  lemma DetectLocaleEmpty()
    ensures DetectLocale("") == "es"
  {
  }

  /** The Open Graph locale is the hreflang tag with '_' for '-', and the
      html `lang` is the tag's language part, which is the locale. */
  lemma LocaleTagsAgree(locale: string)
    requires IsValidLocale(locale)
    ensures var c := LocaleConfig(locale);
            && |c.hreflang| == 5 && c.hreflang[2] == '-'
            && c.ogLocale == c.hreflang[..2] + "_" + c.hreflang[3..]
            && c.htmlLang == c.hreflang[..2] == locale
  {
  }
}
