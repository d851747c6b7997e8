/**
 * `BottomNav`: the mobile navigation bar. It highlights the section the
 * current path belongs to and opens one of three overlays: the scenarios
 * sheet, the "more" sheet and the search modal.
 */
module BottomNav {
  import opened Wrappers
  import opened Text
  import Json

  datatype Section = Inicio | Escenarios | MiKit | More | NoSection

  const ScenarioMarkers: seq<string> := ["/escenarios/", "/scenario/", "/szenarien/"]

  const MyKitMarkers: seq<string> :=
    ["/herramientas/configurador", "/tools/noodpakket-samenstellen", "/tools/notfallpaket-zusammenstellen", "/mi-kit"]

  const MoreMarkers: seq<string> := [
    "/guias/", "/gidsen/", "/ratgeber/",
    "/kit-de-emergencia", "/noodpakket-samenstellen", "/notfallausruestung",
    "/kit-72-horas", "/noodpakket-72-uur", "/notfallpaket-72-stunden",
    "/componentes/", "/producten/", "/produkte/",
    "/herramientas/", "/tools/"]

  /** Some marker occurs in the path. */
  predicate ContainsAny(path: string, markers: seq<string>)
    ensures ContainsAny(path, markers) <==> exists i :: 0 <= i < |markers| && Contains(path, markers[i])
  {
    if markers == [] then false
    else Contains(path, markers[0]) || ContainsAny(path, markers[1..])
  }

  /** The locale's home path, with or without the trailing slash. */
  predicate IsHome(path: string, locale: string) {
    path == "/" + locale + "/" || path == "/" + locale
  }

  /** `getActiveSection`: the home paths first, then the scenario markers,
      then the kit configurator, then guides, pillars, products and tools. */
  function ActiveSection(path: string, locale: string): (r: Section)
    ensures r == Inicio <==> IsHome(path, locale)
    ensures r == Escenarios <==> !IsHome(path, locale) && ContainsAny(path, ScenarioMarkers)
    ensures r == MiKit <==> !IsHome(path, locale) && !ContainsAny(path, ScenarioMarkers) && ContainsAny(path, MyKitMarkers)
    ensures r == More <==>
              !IsHome(path, locale) && !ContainsAny(path, ScenarioMarkers) && !ContainsAny(path, MyKitMarkers)
              && ContainsAny(path, MoreMarkers)
  {
    if IsHome(path, locale) then Inicio
    else if ContainsAny(path, ScenarioMarkers) then Escenarios
    else if ContainsAny(path, MyKitMarkers) then MiKit
    else if ContainsAny(path, MoreMarkers) then More
    else NoSection
  }

  /** `contentPerLocale[locale] || contentPerLocale.es`: the locale whose
      labels and links are shown. A name the object inherits finds a
      function, which holds no labels: `None`. */
  function ContentLocale(locale: string): (r: Option<string>)
    ensures r.None? <==> locale in Json.ObjectPrototypeNames
    ensures r.Some? ==> r.value in {"es", "nl", "de"}
    ensures locale in {"es", "nl", "de"} ==> r == Some(locale)
    ensures locale !in {"es", "nl", "de"} && locale !in Json.ObjectPrototypeNames ==> r == Some("es")
  {
    if locale == "nl" || locale == "de" then Some(locale)
    else if locale in Json.ObjectPrototypeNames then None
    else Some("es")
  }

  /** Which overlays are open. */
  datatype Overlays = Overlays(scenarios: bool, more: bool, search: bool)

  const Closed: Overlays := Overlays(false, false, false)

  predicate AtMostOneOpen(o: Overlays) {
    (o.scenarios ==> !o.more && !o.search) && (o.more ==> !o.search)
  }

  datatype Event =
    | ClickScenarios | ClickMore | ClickSearch
    | KeyDown(key: string)
    | CloseScenarios | CloseMore | CloseSearch

  /** One handler: each click opens its overlay and closes the other two,
      Escape closes all three, and each overlay's `onClose` closes only that
      one. */
  function Step(o: Overlays, e: Event): (r: Overlays)
    ensures e == ClickScenarios ==> r == Overlays(true, false, false)
    ensures e == ClickMore ==> r == Overlays(false, true, false)
    ensures e == ClickSearch ==> r == Overlays(false, false, true)
    ensures e == KeyDown("Escape") ==> r == Closed
    ensures e.KeyDown? && e.key != "Escape" ==> r == o
    ensures e == CloseScenarios ==> r == o.(scenarios := false)
    ensures e == CloseMore ==> r == o.(more := false)
    ensures e == CloseSearch ==> r == o.(search := false)
  {
    match e
    case ClickScenarios => Overlays(true, false, false)
    case ClickMore => Overlays(false, true, false)
    case ClickSearch => Overlays(false, false, true)
    case KeyDown(k) => if k == "Escape" then Closed else o
    case CloseScenarios => o.(scenarios := false)
    case CloseMore => o.(more := false)
    case CloseSearch => o.(search := false)
  }

  /** The overlays after a sequence of events. */
  function Run(o: Overlays, es: seq<Event>): Overlays
    decreases |es|
  {
    if es == [] then o else Run(Step(o, es[0]), es[1..])
  }

  // ---------------------------------------------------------------- lemmas

  /** Every handler keeps at most one overlay open. */
  lemma StepKeepsAtMostOne(o: Overlays, e: Event)
    requires AtMostOneOpen(o)
    ensures AtMostOneOpen(Step(o, e))
  {
  }

  /** From the initial state, no sequence of events opens two overlays. */
  lemma {:induction false} RunKeepsAtMostOne(o: Overlays, es: seq<Event>)
    requires AtMostOneOpen(o)
    ensures AtMostOneOpen(Run(o, es))
    decreases |es|
  {
    if es != [] {
      StepKeepsAtMostOne(o, es[0]);
      RunKeepsAtMostOne(Step(o, es[0]), es[1..]);
    }
  }

  /** The last click decides which overlay is open, and a later Escape
      closes it. */
  lemma LastClickWins(o: Overlays, es: seq<Event>)
    ensures Run(o, es + [ClickSearch]) == Overlays(false, false, true)
    ensures Run(o, es + [ClickMore, KeyDown("Escape")]) == Closed
  {
    RunAppend(o, es, [ClickSearch]);
    RunAppend(o, es, [ClickMore, KeyDown("Escape")]);
    assert [ClickMore, KeyDown("Escape")][1..] == [KeyDown("Escape")];
  }

  lemma {:induction false} RunAppend(o: Overlays, a: seq<Event>, b: seq<Event>)
    ensures Run(o, a + b) == Run(Run(o, a), b)
    decreases |a|
  {
    if a == [] {
      assert a + b == b;
    } else {
      assert (a + b)[1..] == a[1..] + b;
      RunAppend(Step(o, a[0]), a[1..], b);
    }
  }

  /** A scenario marker wins over every later rule: a scenario page under
      the tools directory is still "escenarios". */
  lemma ScenarioBeatsTools(locale: string)
    requires locale in {"es", "nl", "de"}
    ensures ActiveSection("/nl/tools/scenario/x", locale) == Escenarios
  {
    assert Contains("/nl/tools/scenario/x", "/scenario/") by {
      ContainsInfix("/nl/tools", "/scenario/", "x");
      assert "/nl/tools" + "/scenario/" + "x" == "/nl/tools/scenario/x";
    }
    assert ContainsAny("/nl/tools/scenario/x", ScenarioMarkers) by {
      assert ScenarioMarkers[1] == "/scenario/";
    }
  }

  /** The Dutch kit configurator's path. */
  const DutchConfigurator: string := "/nl" + "/tools/noodpakket-samenstellen" + "/"

  /** The Dutch configurator path holds no scenario marker. */
  lemma ConfiguratorNotScenario()
    ensures !ContainsAny(DutchConfigurator, ScenarioMarkers)
  {
    var p := DutchConfigurator;
    assert 'c' !in p && 'z' !in p;
    ContainsChars(p, "/escenarios/", 'c');
    ContainsChars(p, "/scenario/", 'c');
    ContainsChars(p, "/szenarien/", 'z');
  }

  /** The kit configurator matches its own rule before the generic tools
      rule, though its path also contains "/tools/". */
  lemma ConfiguratorIsMyKit()
    ensures ActiveSection(DutchConfigurator, "nl") == MiKit
    ensures ContainsAny(DutchConfigurator, MoreMarkers)
  {
    ConfiguratorNotScenario();
    ConfiguratorMarkers();
  }

  /** The Dutch configurator path holds the configurator marker and the
      generic tools marker. */
  lemma ConfiguratorMarkers()
    ensures ContainsAny(DutchConfigurator, MyKitMarkers)
    ensures ContainsAny(DutchConfigurator, MoreMarkers)
  {
    ContainsInfix("/nl", MyKitMarkers[1], "/");
    ConfiguratorToolsMarker();
  }

  /** The tools marker, the last "more" marker, sits right after "/nl". */
  lemma ConfiguratorToolsMarker()
    ensures Contains(DutchConfigurator, MoreMarkers[13])
  {
    var rest := "noodpakket-samenstellen";
    ContainsInfix("/nl", MoreMarkers[13], rest + "/");
    assert MoreMarkers[13] == "/tools/";
    assert "/tools/noodpakket-samenstellen" == "/tools/" + rest;
    assert "/nl" + MoreMarkers[13] + (rest + "/") == DutchConfigurator;
  }
}
