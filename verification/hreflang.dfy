/**
 * `hreflang-map`: the table linking each page to its equivalents in the
 * other locales, and the lookups the layout uses to emit alternate links.
 *
 * A page concept's mapping lists its URL per locale; `Object.entries` visits
 * the table in declaration order and each mapping's locales in the order
 * es, nl, de, which is the order every literal entry is written in.
 */
module Hreflang {
  import opened Wrappers
  import opened Text

  datatype Mapping = Mapping(es: Option<string>, nl: Option<string>, de: Option<string>)

  const Locales: seq<string> := ["es", "nl", "de"]

  /** The page concepts' identifiers, in declaration order. No lookup reads
      them; they name the rows of the three URL columns below. */
  const PageIds: seq<string> := [
    "home",
    "kit-72-hours",
    "emergency-kit",
    "scenarios-hub",
    "scenario-power-outage",
    "scenario-heat-wave",
    "scenario-water-outage",
    "scenario-evacuation",
    "scenario-flooding",
    "scenario-cyber-attack",
    "guides-hub",
    "guide-water-storage",
    "guide-food-storage",
    "guide-first-aid",
    "guide-energy-communication",
    "products-hub",
    "product-flashlights",
    "product-powerbanks",
    "product-radios",
    "product-water-containers",
    "product-emergency-food",
    "product-first-aid-kit",
    "product-bags",
    "tools-hub",
    "tool-kit-builder",
    "tool-water-calculator",
    "tool-power-calculator",
    "legal-privacy",
    "legal-cookies",
    "legal-editorial",
    "legal-affiliate"
  ]

  const EsUrls: seq<Option<string>> := [
    Some("/es/"),
    Some("/es/kit-72-horas/"),
    Some("/es/kit-de-emergencia/"),
    Some("/es/escenarios/"),
    Some("/es/escenarios/prepararse-apagon/"),
    Some("/es/escenarios/prepararse-ola-calor/"),
    Some("/es/escenarios/prepararse-corte-agua/"),
    Some("/es/escenarios/kit-evacuacion/"),
    None,
    None,
    Some("/es/guias/"),
    Some("/es/guias/almacenamiento-agua/"),
    Some("/es/guias/almacenamiento-comida/"),
    Some("/es/guias/botiquin-primeros-auxilios/"),
    Some("/es/guias/energia-comunicacion/"),
    Some("/es/componentes/"),
    Some("/es/componentes/linternas/"),
    Some("/es/componentes/powerbanks/"),
    Some("/es/componentes/radios-emergencia/"),
    Some("/es/componentes/bidones-agua/"),
    Some("/es/componentes/comida-emergencia/"),
    Some("/es/componentes/botiquin-basico/"),
    Some("/es/componentes/mochilas/"),
    Some("/es/herramientas/"),
    Some("/es/herramientas/configurador-kit/"),
    Some("/es/herramientas/calculadora-agua/"),
    Some("/es/herramientas/calculadora-energia/"),
    Some("/es/privacidad/"),
    Some("/es/cookies/"),
    Some("/es/politica-editorial/"),
    Some("/es/afiliados/")
  ]

  const NlUrls: seq<Option<string>> := [
    Some("/nl/"),
    Some("/nl/noodpakket-72-uur/"),
    Some("/nl/noodpakket-samenstellen/"),
    Some("/nl/scenario/"),
    Some("/nl/scenario/stroomstoring/"),
    Some("/nl/scenario/hittegolf/"),
    Some("/nl/scenario/wateruitval/"),
    Some("/nl/scenario/evacuatie/"),
    Some("/nl/scenario/overstroming/"),
    Some("/nl/scenario/cyberaanval/"),
    Some("/nl/gidsen/"),
    Some("/nl/gidsen/water-opslaan/"),
    Some("/nl/gidsen/voedsel-opslaan/"),
    Some("/nl/gidsen/ehbo-kit/"),
    Some("/nl/gidsen/energie-communicatie/"),
    Some("/nl/producten/"),
    Some("/nl/producten/zaklampen/"),
    Some("/nl/producten/powerbanks/"),
    Some("/nl/producten/noodradio/"),
    Some("/nl/producten/wateropslag/"),
    Some("/nl/producten/noodvoedsel/"),
    Some("/nl/producten/ehbo-doos/"),
    Some("/nl/producten/noodtassen/"),
    Some("/nl/tools/"),
    Some("/nl/tools/noodpakket-samenstellen/"),
    Some("/nl/tools/water-calculator/"),
    Some("/nl/tools/energie-calculator/"),
    Some("/nl/privacy/"),
    Some("/nl/cookies/"),
    Some("/nl/redactioneel-beleid/"),
    Some("/nl/affiliate-disclaimer/")
  ]

  const DeUrls: seq<Option<string>> := [
    Some("/de/"),
    Some("/de/notfallpaket-72-stunden/"),
    Some("/de/notfallausruestung/"),
    Some("/de/szenarien/"),
    Some("/de/szenarien/stromausfall/"),
    Some("/de/szenarien/hitzewelle/"),
    Some("/de/szenarien/wasserausfall/"),
    Some("/de/szenarien/evakuierung/"),
    Some("/de/szenarien/hochwasser/"),
    Some("/de/szenarien/cyberangriff/"),
    Some("/de/ratgeber/"),
    Some("/de/ratgeber/wasser-lagerung/"),
    Some("/de/ratgeber/lebensmittel-lagerung/"),
    Some("/de/ratgeber/erste-hilfe-set/"),
    Some("/de/ratgeber/energie-kommunikation/"),
    Some("/de/produkte/"),
    Some("/de/produkte/taschenlampen/"),
    Some("/de/produkte/powerbanks/"),
    Some("/de/produkte/notfallradio/"),
    Some("/de/produkte/wasserspeicher/"),
    Some("/de/produkte/notnahrung/"),
    Some("/de/produkte/erste-hilfe-kasten/"),
    Some("/de/produkte/notfallrucksack/"),
    Some("/de/tools/"),
    Some("/de/tools/notfallpaket-zusammenstellen/"),
    Some("/de/tools/wasser-rechner/"),
    Some("/de/tools/energie-rechner/"),
    Some("/de/datenschutz/"),
    Some("/de/cookies/"),
    Some("/de/redaktionelle-richtlinien/"),
    Some("/de/affiliate-hinweis/")
  ]

  /** The table: row i maps page `PageIds[i]` to its URL in each locale. */
  const HreflangMap: seq<Mapping> :=
    seq(|PageIds|, i requires 0 <= i < |PageIds| => Mapping(EsUrls[i], NlUrls[i], DeUrls[i]))

  /** The URL a mapping gives for a locale, if it has one. */
  function UrlFor(m: Mapping, locale: string): (r: Option<string>)
    ensures r.Some? ==> locale in Locales
  {
    if locale == "es" then m.es else if locale == "nl" then m.nl else if locale == "de" then m.de else None
  }

  /** Some locale of the mapping has `path` as its URL. */
  predicate Holds(m: Mapping, path: string) {
    m.es == Some(path) || m.nl == Some(path) || m.de == Some(path)
  }

  /** `Object.entries(mapping)`. */
  function Entries(m: Mapping): (r: seq<(string, string)>)
    ensures forall e :: e in r <==> UrlFor(m, e.0) == Some(e.1)
    ensures forall i, j :: 0 <= i < j < |r| ==> r[i].0 != r[j].0
  {
    (if m.es.Some? then [("es", m.es.value)] else [])
    + (if m.nl.Some? then [("nl", m.nl.value)] else [])
    + (if m.de.Some? then [("de", m.de.value)] else [])
  }

  /** `Object.keys(mapping)`. */
  function Keys(m: Mapping): (r: seq<string>)
    ensures forall l :: l in r <==> UrlFor(m, l).Some?
    ensures |r| <= 3
  {
    (if m.es.Some? then ["es"] else []) + (if m.nl.Some? then ["nl"] else []) + (if m.de.Some? then ["de"] else [])
  }

  /** The path with a trailing slash added when it lacks one. */
  function Normalize(path: string): (r: string)
    ensures EndsWith(r, "/")
    ensures EndsWith(path, "/") ==> r == path
    ensures !EndsWith(path, "/") ==> r == path + "/"
  {
    if EndsWith(path, "/") then path else path + "/"
  }

  /** The first locale of a mapping whose URL is `path`. */
  function MatchIn(entries: seq<(string, string)>, path: string): (r: Option<string>)
    ensures r.Some? ==> (r.value, path) in entries
    ensures r.None? ==> forall e :: e in entries ==> e.1 != path
  {
    if entries == [] then None
    else if entries[0].1 == path then Some(entries[0].0)
    else MatchIn(entries[1..], path)
  }

  /** The first mapping, in table order, holding `path`, with the locale it
      holds it under. */
  function Lookup(table: seq<Mapping>, path: string): (r: Option<(nat, string)>)
    ensures r.Some? ==> r.value.0 < |table| && UrlFor(table[r.value.0], r.value.1) == Some(path)
    ensures r.Some? ==> forall i :: 0 <= i < r.value.0 ==> !Holds(table[i], path)
    ensures r.None? ==> forall i :: 0 <= i < |table| ==> !Holds(table[i], path)
  {
    if table == [] then None
    else match MatchLocale(table[0], path)
      case Some(l) => Some((0, l))
      case None =>
        assert forall i :: 1 <= i < |table| ==> table[1..][i - 1] == table[i];
        match Lookup(table[1..], path)
        case None => None
        case Some(hit) => Some((hit.0 + 1, hit.1))
  }

  /** The first locale, in entry order, under which a mapping holds `path`. */
  function MatchLocale(m: Mapping, path: string): (r: Option<string>)
    ensures r.None? <==> !Holds(m, path)
    ensures r.Some? ==> UrlFor(m, r.value) == Some(path)
  {
    assert m.es == Some(path) ==> ("es", path) in Entries(m);
    assert m.nl == Some(path) ==> ("nl", path) in Entries(m);
    assert m.de == Some(path) ==> ("de", path) in Entries(m);
    MatchIn(Entries(m), path)
  }

  /** The other locales of a mapping that have a non-empty URL. */
  function Others(m: Mapping, locale: string): (r: map<string, string>)
    ensures locale !in r
    ensures forall l :: l in r <==> l != locale && UrlFor(m, l).Some? && UrlFor(m, l).value != ""
    ensures forall l :: l in r ==> UrlFor(m, l) == Some(r[l])
  {
    map l | l in Locales && l != locale && UrlFor(m, l).Some? && UrlFor(m, l).value != "" :: UrlFor(m, l).value
  }

  /** `getAlternatesForPath`. */
  function GetAlternates(table: seq<Mapping>, path: string): (r: map<string, string>)
    ensures Lookup(table, Normalize(path)).None? ==> r == map[]
    ensures Lookup(table, Normalize(path)).Some? ==>
              var hit := Lookup(table, Normalize(path)).value;
              && hit.1 !in r
              && (forall l :: l in r <==> l != hit.1 && UrlFor(table[hit.0], l).Some? && UrlFor(table[hit.0], l).value != "")
              && (forall l :: l in r ==> UrlFor(table[hit.0], l) == Some(r[l]))
  {
    match Lookup(table, Normalize(path))
    case None => map[]
    case Some(hit) => Others(table[hit.0], hit.1)
  }

  /** `getAvailableLocalesForPath`. */
  function AvailableLocales(table: seq<Mapping>, path: string): (r: seq<string>)
    ensures forall l :: l in r ==> l in Locales
    ensures Lookup(table, Normalize(path)).Some? ==> Lookup(table, Normalize(path)).value.1 in r
    ensures Lookup(table, Normalize(path)).None? ==> |r| == 1
  {
    var np := Normalize(path);
    match Lookup(table, np)
    case Some(hit) => Keys(table[hit.0])
    case None =>
      var parts := Split(np, '/');
      if |parts| > 1 && parts[1] in Locales then [parts[1]] else ["es"]
  }

  /** `hasAlternates`. */
  function HasAlternates(table: seq<Mapping>, path: string): (r: bool)
    ensures r <==> GetAlternates(table, path) != map[]
    ensures Lookup(table, Normalize(path)).None? ==> !r
  {
    |GetAlternates(table, path)| > 0
  }

  // ------------------------------------------------------- table properties

  /** No URL appears twice, within a mapping or across mappings. */
  ghost predicate Unique(table: seq<Mapping>) {
    && (forall i :: 0 <= i < |table| ==> Distinct3(table[i]))
    && (forall i, j, u :: 0 <= i < j < |table| && Holds(table[i], u) ==> !Holds(table[j], u))
  }

  predicate Distinct3(m: Mapping) {
    && (m.es.Some? && m.nl.Some? ==> m.es.value != m.nl.value)
    && (m.es.Some? && m.de.Some? ==> m.es.value != m.de.value)
    && (m.nl.Some? && m.de.Some? ==> m.nl.value != m.de.value)
  }

  /** `url` ends with '/', and its first segment starts with the locale's
      first letter; "es", "nl" and "de" differ in that letter, so URLs of
      different locales never coincide. */
  predicate Shaped(url: string, locale: string)
    requires |locale| >= 1
  {
    |url| >= 2 && url[1] == locale[0] && url[|url| - 1] == '/'
  }

  /** Every URL of the table ends with '/' and is shaped for its locale. */
  predicate WellFormed(table: seq<Mapping>) {
    forall i :: 0 <= i < |table| ==>
      && (table[i].es.Some? ==> Shaped(table[i].es.value, "es"))
      && (table[i].nl.Some? ==> Shaped(table[i].nl.value, "nl"))
      && (table[i].de.Some? ==> Shaped(table[i].de.value, "de"))
  }

  /** A locale's column of the table. */
  function Column(table: seq<Mapping>, l: string): (r: seq<Option<string>>)
    ensures |r| == |table| && forall i :: 0 <= i < |table| ==> r[i] == UrlFor(table[i], l)
  {
    seq(|table|, i requires 0 <= i < |table| => UrlFor(table[i], l))
  }

  /** No URL of rows `lo` up to `hi` of a column reappears further down. */
  predicate NoRepeat(col: seq<Option<string>>, lo: nat, hi: nat) {
    forall i, j :: lo <= i < hi && i < j < |col| && col[i].Some? && col[j].Some? ==> col[i].value != col[j].value
  }

  // ---------------------------------------------------------------- lemmas

  /** A path and the same path with the trailing slash give the same
      answers, and normalising twice changes nothing. */
  lemma TrailingSlashInsensitive(table: seq<Mapping>, path: string)
    ensures Normalize(Normalize(path)) == Normalize(path)
    ensures GetAlternates(table, Normalize(path)) == GetAlternates(table, path)
    ensures AvailableLocales(table, Normalize(path)) == AvailableLocales(table, path)
  {
  }

  /** In a table without repeated URLs, every URL is found at its own
      mapping and locale. */
  lemma LookupOwn(table: seq<Mapping>, i: nat, l: string)
    requires Unique(table)
    requires i < |table| && UrlFor(table[i], l).Some?
    ensures Lookup(table, UrlFor(table[i], l).value) == Some((i, l))
  {
    var u := UrlFor(table[i], l).value;
    assert Holds(table[i], u);
    var hit := Lookup(table, u).value;
    if hit.0 < i {
      assert Holds(table[hit.0], u);
    }
    assert hit.0 == i;
  }

  /** Seen from another locale of the same mapping, the other locales are
      the first view's, with the two locales swapped. */
  lemma SwapOthers(m: Mapping, l0: string, k: string)
    requires UrlFor(m, l0).Some? && UrlFor(m, l0).value != ""
    requires k in Others(m, l0)
    ensures Others(m, k) == (Others(m, l0) - {k})[l0 := UrlFor(m, l0).value]
  {
    var lhs := Others(m, k);
    var rhs := (Others(m, l0) - {k})[l0 := UrlFor(m, l0).value];
    assert forall l :: l in lhs <==> l in rhs;
  }

  /** A URL of a well-formed table is not empty and ends with '/'. */
  lemma UrlShape(table: seq<Mapping>, i: nat, l: string)
    requires WellFormed(table)
    requires i < |table| && UrlFor(table[i], l).Some?
    ensures UrlFor(table[i], l).value != "" && Normalize(UrlFor(table[i], l).value) == UrlFor(table[i], l).value
  {
    var u := UrlFor(table[i], l).value;
    if l == "es" {
      assert Shaped(table[i].es.value, "es");
    } else if l == "nl" {
      assert Shaped(table[i].nl.value, "nl");
    } else {
      assert Shaped(table[i].de.value, "de");
    }
    assert u[|u| - 1] == '/';
  }

  /** The relation is symmetric: following an alternate link from a page
      leads to a page whose alternates are the first page's, with the
      locale followed swapped for the first page itself. */
  lemma AlternatesSymmetric(table: seq<Mapping>, path: string, k: string)
    requires Unique(table) && WellFormed(table)
    requires k in GetAlternates(table, path)
    ensures var hit := Lookup(table, Normalize(path)).value;
            var q := GetAlternates(table, path)[k];
            GetAlternates(table, q) == (GetAlternates(table, path) - {k})[hit.1 := Normalize(path)]
  {
    var hit := Lookup(table, Normalize(path)).value;
    var m := table[hit.0];
    var alts := GetAlternates(table, path);
    assert alts == Others(m, hit.1);
    var q := alts[k];
    assert UrlFor(m, k) == Some(q);
    UrlShape(table, hit.0, k);
    LookupOwn(table, hit.0, k);
    assert GetAlternates(table, q) == Others(m, k);
    assert UrlFor(m, hit.1) == Some(Normalize(path));
    SwapOthers(m, hit.1, k);
  }

  /** The locales offered for a page are its own locale and its alternates'. */
  lemma AvailableIsOwnPlusAlternates(table: seq<Mapping>, path: string, l: string)
    requires WellFormed(table)
    requires Lookup(table, Normalize(path)).Some?
    ensures l in AvailableLocales(table, path) <==>
              l == Lookup(table, Normalize(path)).value.1 || l in GetAlternates(table, path)
  {
    var hit := Lookup(table, Normalize(path)).value;
    var m := table[hit.0];
    assert AvailableLocales(table, path) == Keys(m);
    assert GetAlternates(table, path) == Others(m, hit.1);
    if UrlFor(m, l).Some? {
      UrlShape(table, hit.0, l);
    }
  }

  /** An unmapped path under a locale's directory is offered in that locale
      only; any other unmapped path in Spanish only. */
  lemma AvailableFallback(table: seq<Mapping>, l: string, rest: string)
    requires l in Locales
    requires rest == [] || rest[0] == '/'
    requires Lookup(table, Normalize("/" + l + rest)).None?
    ensures AvailableLocales(table, "/" + l + rest) == [l]
  {
    var p := "/" + l + rest;
    var rest' := if EndsWith(p, "/") then rest else rest + "/";
    if !EndsWith(p, "/") {
      assert p + "/" == "/" + l + rest';
      assert rest'[0] == '/';
    }
    assert Normalize(p) == "/" + l + rest';
    assert '/' !in l;
    SecondSegment(l, rest');
  }

  /** A page has alternates exactly when it is mapped and its mapping names
      another locale with a non-empty URL. */
  lemma HasAlternatesIff(table: seq<Mapping>, path: string)
    ensures HasAlternates(table, path) <==>
              Lookup(table, Normalize(path)).Some? &&
              var hit := Lookup(table, Normalize(path)).value;
              exists l :: l != hit.1 && UrlFor(table[hit.0], l).Some? && UrlFor(table[hit.0], l).value != ""
  {
    var alts := GetAlternates(table, path);
    if Lookup(table, Normalize(path)).Some? {
      var hit := Lookup(table, Normalize(path)).value;
      if exists l :: l != hit.1 && UrlFor(table[hit.0], l).Some? && UrlFor(table[hit.0], l).value != "" {
        var l :| l != hit.1 && UrlFor(table[hit.0], l).Some? && UrlFor(table[hit.0], l).value != "";
        assert l in alts;
      }
      if |alts| > 0 {
        var l :| l in alts;
      }
    }
  }

  /** In a well-formed table, a URL two rows share is under the same
      locale in both. */
  lemma SameLocale(table: seq<Mapping>, i: nat, j: nat, u: string) returns (l: string)
    requires WellFormed(table)
    requires i < |table| && j < |table| && Holds(table[i], u) && Holds(table[j], u)
    ensures l in Locales && Column(table, l)[i] == Some(u) && Column(table, l)[j] == Some(u)
  {
    if table[i].es == Some(u) {
      assert u[1] == 'e';
      l := "es";
    } else if table[i].nl == Some(u) {
      assert u[1] == 'n';
      l := "nl";
    } else {
      assert u[1] == 'd';
      l := "de";
    }
  }

  /** A table whose URLs sit under their locales' directories, and whose
      columns repeat no URL, repeats no URL at all. */
  lemma UniqueFromColumns(table: seq<Mapping>)
    requires WellFormed(table)
    requires forall l :: l in Locales ==> NoRepeat(Column(table, l), 0, |table|)
    ensures Unique(table)
  {
    forall i, j, u | 0 <= i < j < |table| && Holds(table[i], u)
      ensures !Holds(table[j], u)
    {
      if Holds(table[j], u) {
        var l := SameLocale(table, i, j, u);
        assert false;
      }
    }
  }

  /** Rows `lo` up to `hi` of a locale's column are shaped for the locale. */
  predicate ColumnShaped(col: seq<Option<string>>, l: string, lo: nat, hi: nat)
    requires |l| >= 1
  {
    forall i :: lo <= i < hi && i < |col| && col[i].Some? ==> Shaped(col[i].value, l)
  }

  /** Column facts compose over adjacent row ranges. */
  lemma NoRepeatJoin(col: seq<Option<string>>, lo: nat, mid: nat, hi: nat)
    requires NoRepeat(col, lo, mid) && NoRepeat(col, mid, hi)
    ensures NoRepeat(col, lo, hi)
  {
  }

  lemma ColumnShapedJoin(col: seq<Option<string>>, l: string, lo: nat, mid: nat, hi: nat)
    requires |l| >= 1
    requires ColumnShaped(col, l, lo, mid) && ColumnShaped(col, l, mid, hi)
    ensures ColumnShaped(col, l, lo, hi)
  {
  }

  lemma EsUrlsShaped0()
    ensures ColumnShaped(EsUrls, "es", 0, 6)
  {
  }

  lemma EsUrlsShaped1()
    ensures ColumnShaped(EsUrls, "es", 6, 12)
  {
  }

  lemma EsUrlsShaped2()
    ensures ColumnShaped(EsUrls, "es", 12, 18)
  {
  }

  lemma EsUrlsShaped3()
    ensures ColumnShaped(EsUrls, "es", 18, 24)
  {
  }

  lemma EsUrlsShaped4()
    ensures ColumnShaped(EsUrls, "es", 24, |EsUrls|)
  {
  }

  lemma EsUrlsDistinct0()
    ensures NoRepeat(EsUrls, 0, 1)
  {
  }

  lemma EsUrlsDistinct1()
    ensures NoRepeat(EsUrls, 1, 2)
  {
  }

  lemma EsUrlsDistinct2()
    ensures NoRepeat(EsUrls, 2, 3)
  {
  }

  lemma EsUrlsDistinct3()
    ensures NoRepeat(EsUrls, 3, 4)
  {
  }

  lemma EsUrlsDistinct4()
    ensures NoRepeat(EsUrls, 4, 5)
  {
  }

  lemma EsUrlsDistinct5()
    ensures NoRepeat(EsUrls, 5, 6)
  {
  }

  lemma EsUrlsDistinct6()
    ensures NoRepeat(EsUrls, 6, 7)
  {
  }

  lemma EsUrlsDistinct7()
    ensures NoRepeat(EsUrls, 7, 9)
  {
  }

  lemma EsUrlsDistinct8()
    ensures NoRepeat(EsUrls, 9, 11)
  {
  }

  lemma EsUrlsDistinct9()
    ensures NoRepeat(EsUrls, 11, 13)
  {
  }

  lemma EsUrlsDistinct10()
    ensures NoRepeat(EsUrls, 13, 15)
  {
  }

  lemma EsUrlsDistinct11()
    ensures NoRepeat(EsUrls, 15, 18)
  {
  }

  lemma EsUrlsDistinct12()
    ensures NoRepeat(EsUrls, 18, 22)
  {
  }

  lemma EsUrlsDistinct13()
    ensures NoRepeat(EsUrls, 22, |EsUrls|)
  {
  }

  /** The es column is shaped for its locale and repeats no URL. */
  lemma EsColumn()
    ensures ColumnShaped(EsUrls, "es", 0, |EsUrls|) && NoRepeat(EsUrls, 0, |EsUrls|)
  {
    EsUrlsShaped0();
    EsUrlsShaped1();
    ColumnShapedJoin(EsUrls, "es", 0, 6, 12);
    EsUrlsShaped2();
    ColumnShapedJoin(EsUrls, "es", 0, 12, 18);
    EsUrlsShaped3();
    ColumnShapedJoin(EsUrls, "es", 0, 18, 24);
    EsUrlsShaped4();
    ColumnShapedJoin(EsUrls, "es", 0, 24, |EsUrls|);
    EsUrlsDistinct0();
    EsUrlsDistinct1();
    NoRepeatJoin(EsUrls, 0, 1, 2);
    EsUrlsDistinct2();
    NoRepeatJoin(EsUrls, 0, 2, 3);
    EsUrlsDistinct3();
    NoRepeatJoin(EsUrls, 0, 3, 4);
    EsUrlsDistinct4();
    NoRepeatJoin(EsUrls, 0, 4, 5);
    EsUrlsDistinct5();
    NoRepeatJoin(EsUrls, 0, 5, 6);
    EsUrlsDistinct6();
    NoRepeatJoin(EsUrls, 0, 6, 7);
    EsUrlsDistinct7();
    NoRepeatJoin(EsUrls, 0, 7, 9);
    EsUrlsDistinct8();
    NoRepeatJoin(EsUrls, 0, 9, 11);
    EsUrlsDistinct9();
    NoRepeatJoin(EsUrls, 0, 11, 13);
    EsUrlsDistinct10();
    NoRepeatJoin(EsUrls, 0, 13, 15);
    EsUrlsDistinct11();
    NoRepeatJoin(EsUrls, 0, 15, 18);
    EsUrlsDistinct12();
    NoRepeatJoin(EsUrls, 0, 18, 22);
    EsUrlsDistinct13();
    NoRepeatJoin(EsUrls, 0, 22, |EsUrls|);
  }

  lemma NlUrlsShaped0()
    ensures ColumnShaped(NlUrls, "nl", 0, 6)
  {
  }

  lemma NlUrlsShaped1()
    ensures ColumnShaped(NlUrls, "nl", 6, 12)
  {
  }

  lemma NlUrlsShaped2()
    ensures ColumnShaped(NlUrls, "nl", 12, 18)
  {
  }

  lemma NlUrlsShaped3()
    ensures ColumnShaped(NlUrls, "nl", 18, 24)
  {
  }

  lemma NlUrlsShaped4()
    ensures ColumnShaped(NlUrls, "nl", 24, |NlUrls|)
  {
  }

  lemma NlUrlsDistinct0()
    ensures NoRepeat(NlUrls, 0, 1)
  {
  }

  lemma NlUrlsDistinct1()
    ensures NoRepeat(NlUrls, 1, 2)
  {
  }

  lemma NlUrlsDistinct2()
    ensures NoRepeat(NlUrls, 2, 3)
  {
  }

  lemma NlUrlsDistinct3()
    ensures NoRepeat(NlUrls, 3, 4)
  {
  }

  lemma NlUrlsDistinct4()
    ensures NoRepeat(NlUrls, 4, 5)
  {
  }

  lemma NlUrlsDistinct5()
    ensures NoRepeat(NlUrls, 5, 6)
  {
  }

  lemma NlUrlsDistinct6()
    ensures NoRepeat(NlUrls, 6, 7)
  {
  }

  lemma NlUrlsDistinct7()
    ensures NoRepeat(NlUrls, 7, 9)
  {
  }

  lemma NlUrlsDistinct8()
    ensures NoRepeat(NlUrls, 9, 11)
  {
  }

  lemma NlUrlsDistinct9()
    ensures NoRepeat(NlUrls, 11, 13)
  {
  }

  lemma NlUrlsDistinct10()
    ensures NoRepeat(NlUrls, 13, 15)
  {
  }

  lemma NlUrlsDistinct11()
    ensures NoRepeat(NlUrls, 15, 18)
  {
  }

  lemma NlUrlsDistinct12()
    ensures NoRepeat(NlUrls, 18, 22)
  {
  }

  lemma NlUrlsDistinct13()
    ensures NoRepeat(NlUrls, 22, |NlUrls|)
  {
  }

  /** The nl column is shaped for its locale and repeats no URL. */
  lemma NlColumn()
    ensures ColumnShaped(NlUrls, "nl", 0, |NlUrls|) && NoRepeat(NlUrls, 0, |NlUrls|)
  {
    NlUrlsShaped0();
    NlUrlsShaped1();
    ColumnShapedJoin(NlUrls, "nl", 0, 6, 12);
    NlUrlsShaped2();
    ColumnShapedJoin(NlUrls, "nl", 0, 12, 18);
    NlUrlsShaped3();
    ColumnShapedJoin(NlUrls, "nl", 0, 18, 24);
    NlUrlsShaped4();
    ColumnShapedJoin(NlUrls, "nl", 0, 24, |NlUrls|);
    NlUrlsDistinct0();
    NlUrlsDistinct1();
    NoRepeatJoin(NlUrls, 0, 1, 2);
    NlUrlsDistinct2();
    NoRepeatJoin(NlUrls, 0, 2, 3);
    NlUrlsDistinct3();
    NoRepeatJoin(NlUrls, 0, 3, 4);
    NlUrlsDistinct4();
    NoRepeatJoin(NlUrls, 0, 4, 5);
    NlUrlsDistinct5();
    NoRepeatJoin(NlUrls, 0, 5, 6);
    NlUrlsDistinct6();
    NoRepeatJoin(NlUrls, 0, 6, 7);
    NlUrlsDistinct7();
    NoRepeatJoin(NlUrls, 0, 7, 9);
    NlUrlsDistinct8();
    NoRepeatJoin(NlUrls, 0, 9, 11);
    NlUrlsDistinct9();
    NoRepeatJoin(NlUrls, 0, 11, 13);
    NlUrlsDistinct10();
    NoRepeatJoin(NlUrls, 0, 13, 15);
    NlUrlsDistinct11();
    NoRepeatJoin(NlUrls, 0, 15, 18);
    NlUrlsDistinct12();
    NoRepeatJoin(NlUrls, 0, 18, 22);
    NlUrlsDistinct13();
    NoRepeatJoin(NlUrls, 0, 22, |NlUrls|);
  }

  lemma DeUrlsShaped0()
    ensures ColumnShaped(DeUrls, "de", 0, 6)
  {
  }

  lemma DeUrlsShaped1()
    ensures ColumnShaped(DeUrls, "de", 6, 12)
  {
  }

  lemma DeUrlsShaped2()
    ensures ColumnShaped(DeUrls, "de", 12, 18)
  {
  }

  lemma DeUrlsShaped3()
    ensures ColumnShaped(DeUrls, "de", 18, 24)
  {
  }

  lemma DeUrlsShaped4()
    ensures ColumnShaped(DeUrls, "de", 24, |DeUrls|)
  {
  }

  lemma DeUrlsDistinct0()
    ensures NoRepeat(DeUrls, 0, 1)
  {
  }

  lemma DeUrlsDistinct1()
    ensures NoRepeat(DeUrls, 1, 2)
  {
  }

  lemma DeUrlsDistinct2()
    ensures NoRepeat(DeUrls, 2, 3)
  {
  }

  lemma DeUrlsDistinct3()
    ensures NoRepeat(DeUrls, 3, 4)
  {
  }

  lemma DeUrlsDistinct4()
    ensures NoRepeat(DeUrls, 4, 5)
  {
  }

  lemma DeUrlsDistinct5()
    ensures NoRepeat(DeUrls, 5, 6)
  {
  }

  lemma DeUrlsDistinct6()
    ensures NoRepeat(DeUrls, 6, 7)
  {
  }

  lemma DeUrlsDistinct7()
    ensures NoRepeat(DeUrls, 7, 9)
  {
  }

  lemma DeUrlsDistinct8()
    ensures NoRepeat(DeUrls, 9, 11)
  {
  }

  lemma DeUrlsDistinct9()
    ensures NoRepeat(DeUrls, 11, 13)
  {
  }

  lemma DeUrlsDistinct10()
    ensures NoRepeat(DeUrls, 13, 15)
  {
  }

  lemma DeUrlsDistinct11()
    ensures NoRepeat(DeUrls, 15, 18)
  {
  }

  lemma DeUrlsDistinct12()
    ensures NoRepeat(DeUrls, 18, 22)
  {
  }

  lemma DeUrlsDistinct13()
    ensures NoRepeat(DeUrls, 22, |DeUrls|)
  {
  }

  /** The de column is shaped for its locale and repeats no URL. */
  lemma DeColumn()
    ensures ColumnShaped(DeUrls, "de", 0, |DeUrls|) && NoRepeat(DeUrls, 0, |DeUrls|)
  {
    DeUrlsShaped0();
    DeUrlsShaped1();
    ColumnShapedJoin(DeUrls, "de", 0, 6, 12);
    DeUrlsShaped2();
    ColumnShapedJoin(DeUrls, "de", 0, 12, 18);
    DeUrlsShaped3();
    ColumnShapedJoin(DeUrls, "de", 0, 18, 24);
    DeUrlsShaped4();
    ColumnShapedJoin(DeUrls, "de", 0, 24, |DeUrls|);
    DeUrlsDistinct0();
    DeUrlsDistinct1();
    NoRepeatJoin(DeUrls, 0, 1, 2);
    DeUrlsDistinct2();
    NoRepeatJoin(DeUrls, 0, 2, 3);
    DeUrlsDistinct3();
    NoRepeatJoin(DeUrls, 0, 3, 4);
    DeUrlsDistinct4();
    NoRepeatJoin(DeUrls, 0, 4, 5);
    DeUrlsDistinct5();
    NoRepeatJoin(DeUrls, 0, 5, 6);
    DeUrlsDistinct6();
    NoRepeatJoin(DeUrls, 0, 6, 7);
    DeUrlsDistinct7();
    NoRepeatJoin(DeUrls, 0, 7, 9);
    DeUrlsDistinct8();
    NoRepeatJoin(DeUrls, 0, 9, 11);
    DeUrlsDistinct9();
    NoRepeatJoin(DeUrls, 0, 11, 13);
    DeUrlsDistinct10();
    NoRepeatJoin(DeUrls, 0, 13, 15);
    DeUrlsDistinct11();
    NoRepeatJoin(DeUrls, 0, 15, 18);
    DeUrlsDistinct12();
    NoRepeatJoin(DeUrls, 0, 18, 22);
    DeUrlsDistinct13();
    NoRepeatJoin(DeUrls, 0, 22, |DeUrls|);
  }

  /** The site's table repeats no URL, so its alternate links are
      bidirectional (`AlternatesSymmetric`). */
  lemma HreflangMapUnique()
    ensures WellFormed(HreflangMap) && Unique(HreflangMap)
  {
    EsColumn();
    NlColumn();
    DeColumn();
    assert Column(HreflangMap, "es") == EsUrls;
    assert Column(HreflangMap, "nl") == NlUrls;
    assert Column(HreflangMap, "de") == DeUrls;
    UniqueFromColumns(HreflangMap);
  }

  /** The flooding scenario's row. */
  lemma FloodingRow()
    ensures HreflangMap[8] == Mapping(None, Some("/nl/scenario/overstroming/"), Some("/de/szenarien/hochwasser/"))
  {
  }

  /** The Dutch flooding URL is found at its own row. */
  lemma FloodingLookup()
    ensures Lookup(HreflangMap, "/nl/scenario/overstroming/") == Some((8, "nl"))
  {
    FloodingRow();
    HreflangMapUnique();
    LookupOwn(HreflangMap, 8, "nl");
  }

  lemma FloodingNormalize()
    ensures Normalize("/nl/scenario/overstroming") == "/nl/scenario/overstroming/"
  {
  }

  lemma FloodingOthers()
    ensures Others(HreflangMap[8], "nl") == map["de" := "/de/szenarien/hochwasser/"]
  {
    FloodingRow();
  }

  /** The flooding scenario has no Spanish page: from the Dutch page, with
      or without its trailing slash, the only alternate is the German one. */
  lemma FloodingAlternates()
    ensures GetAlternates(HreflangMap, "/nl/scenario/overstroming") == map["de" := "/de/szenarien/hochwasser/"]
  {
    FloodingNormalize();
    FloodingLookup();
    FloodingOthers();
  }

  /** The flooding page exists in Dutch and German only. */
  lemma FloodingLocales()
    ensures AvailableLocales(HreflangMap, "/nl/scenario/overstroming/") == ["nl", "de"]
  {
    var u := "/nl/scenario/overstroming/";
    FloodingRow();
    FloodingLookup();
    assert Normalize(u) == u;
  }
}
