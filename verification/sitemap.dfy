/**
 * `Sitemap`: the sitemap integration's page filter and per-URL priority and
 * change frequency.
 *
 * Priorities are written in tenths (0.3 is 3) so that they are exact. The
 * date stamped on every entry is a parameter.
 */
module Sitemap {
  import opened Wrappers
  import opened Text
  import opened Json
  import opened BottomNav

  const Origin: string := "https://www.kit-72.com/"

  /** The legal pages left out of the sitemap. */
  const ExcludedMarkers: seq<string> := [
    "/cookies/", "/privacidad/", "/privacy/", "/datenschutz/",
    "/afiliados/", "/affiliate-disclaimer/", "/affiliate-hinweis/"]

  /** The sitemap `filter`. */
  predicate Keep(page: string)
    ensures Keep(page) <==> forall i :: 0 <= i < |ExcludedMarkers| ==> !Contains(page, ExcludedMarkers[i])
  {
    !ContainsAny(page, ExcludedMarkers)
  }

  datatype Freq = Weekly | Monthly

  const PillarMarkers: seq<string> := [
    "/kit-de-emergencia/", "/kit-72-horas/",
    "/noodpakket-samenstellen/", "/noodpakket-72-uur/",
    "/notfallausruestung/", "/notfallpaket-72-stunden/"]

  const GuideMarkers: seq<string> := ["/guias/", "/gidsen/", "/ratgeber/"]

  const ProductMarkers: seq<string> := ["/componentes/", "/producten/", "/produkte/"]

  const ToolMarkers: seq<string> := ["/herramientas/", "/tools/"]

  /** The regular expression `^https://www\.kit-72\.com/(es|nl|de)/$`. */
  predicate IsLocaleHome(url: string) {
    url == Origin + "es/" || url == Origin + "nl/" || url == Origin + "de/"
  }

  /** A scenario page: some scenario directory occurs in the URL, and the
      URL is not that directory's hub. Each locale's rule only looks at its
      own directory. */
  predicate IsScenarioPage(url: string) {
    exists i :: 0 <= i < |ScenarioMarkers| && Contains(url, ScenarioMarkers[i]) && !EndsWith(url, ScenarioMarkers[i])
  }

  /** The first matching rule of `serialize`, as (priority in tenths,
      change frequency). */
  function Classify(url: string): (r: (int, Freq))
    ensures r.0 in {3, 5, 6, 7, 8, 9, 10}
    ensures r.1 == Weekly <==> r.0 >= 9
    ensures r.0 == 10 <==> IsLocaleHome(url)
    ensures r.0 == 3 <==> url == Origin
  {
    if url == Origin then (3, Monthly)
    else if IsLocaleHome(url) then (10, Weekly)
    else if ContainsAny(url, PillarMarkers) then (9, Weekly)
    else if ScenarioRule(url, 0) then (8, Monthly)
    else if ContainsAny(url, GuideMarkers) || ContainsAny(url, ProductMarkers) then (7, Monthly)
    else if ContainsAny(url, ToolMarkers) then (6, Monthly)
    else (5, Monthly)
  }

  /** The three scenario rules from the `k`-th on, written so that they
      evaluate. */
  predicate ScenarioRule(url: string, k: nat)
    requires k <= |ScenarioMarkers|
    ensures ScenarioRule(url, k) <==>
              exists i :: k <= i < |ScenarioMarkers| && Contains(url, ScenarioMarkers[i]) && !EndsWith(url, ScenarioMarkers[i])
    decreases |ScenarioMarkers| - k
  {
    if k == |ScenarioMarkers| then false
    else (Contains(url, ScenarioMarkers[k]) && !EndsWith(url, ScenarioMarkers[k])) || ScenarioRule(url, k + 1)
  }

  /** A sitemap entry: the URL, the entry's other fields by name, and the
      three fields `serialize` sets. */
  datatype Entry = Entry(url: string, others: map<string, Json>, priority: int, changefreq: Freq, lastmod: string)

  /** `serialize`: the item's fields are kept, except that priority, change
      frequency and date are set. */
  function Serialize(url: string, others: map<string, Json>, today: string): (e: Entry)
    ensures e.url == url && e.lastmod == today
    ensures (e.priority, e.changefreq) == Classify(url)
    ensures forall k :: k in others && k !in {"priority", "changefreq", "lastmod"} ==> k in e.others && e.others[k] == others[k]
    ensures forall k :: k in e.others ==> k in others && k !in {"priority", "changefreq", "lastmod"}
  {
    var c := Classify(url);
    Entry(url, others - {"priority", "changefreq", "lastmod"}, c.0, c.1, today)
  }

  // ---------------------------------------------------------------- lemmas

  /** The rules are tried in order: a pillar marker gives 0.9 weekly
      whatever later rule the URL would also meet, a scenario page that is
      no pillar, root or home gets 0.8 even under a guides or tools
      directory, guides and products get 0.7, tools 0.6 and anything else
      0.5, all monthly. */
  lemma RuleOrder(url: string)
    requires url != Origin && !IsLocaleHome(url)
    ensures ContainsAny(url, PillarMarkers) ==> Classify(url) == (9, Weekly)
    ensures !ContainsAny(url, PillarMarkers) && IsScenarioPage(url) ==> Classify(url) == (8, Monthly)
    ensures !ContainsAny(url, PillarMarkers) && !IsScenarioPage(url) && ContainsAny(url, GuideMarkers)
            ==> Classify(url) == (7, Monthly)
    ensures !ContainsAny(url, PillarMarkers) && !IsScenarioPage(url) && ContainsAny(url, ProductMarkers)
            ==> Classify(url) == (7, Monthly)
    ensures !ContainsAny(url, PillarMarkers) && !IsScenarioPage(url) && !ContainsAny(url, GuideMarkers)
            && !ContainsAny(url, ProductMarkers) && ContainsAny(url, ToolMarkers)
            ==> Classify(url) == (6, Monthly)
    ensures !ContainsAny(url, PillarMarkers) && !IsScenarioPage(url) && !ContainsAny(url, GuideMarkers)
            && !ContainsAny(url, ProductMarkers) && !ContainsAny(url, ToolMarkers)
            ==> Classify(url) == (5, Monthly)
  {
  }

  /** A scenario hub, whose URL ends with its directory and names no other
      scenario directory, never gets the scenario priority. */
  lemma HubsAreNotScenarioPages(url: string)
    requires forall i :: 0 <= i < |ScenarioMarkers| && Contains(url, ScenarioMarkers[i]) ==> EndsWith(url, ScenarioMarkers[i])
    ensures Classify(url).0 != 8
  {
  }

  const DutchKitBuilder: string := Origin + "nl/tools" + "/noodpakket-samenstellen/"

  /** The Dutch kit builder sits under "/tools/", yet the Dutch pillar
      marker "/noodpakket-samenstellen/" gives it 0.9 weekly first. */
  lemma DutchKitBuilderIsPillar()
    ensures ContainsAny(DutchKitBuilder, PillarMarkers)
    ensures ContainsAny(DutchKitBuilder, ToolMarkers)
    ensures Classify(DutchKitBuilder) == (9, Weekly)
  {
    assert ContainsAny(DutchKitBuilder, PillarMarkers) by {
      ContainsInfix(Origin + "nl/tools", PillarMarkers[2], "");
      assert Origin + "nl/tools" + PillarMarkers[2] + "" == DutchKitBuilder;
    }
    assert ContainsAny(DutchKitBuilder, ToolMarkers) by {
      var rest := "noodpakket-samenstellen/";
      ContainsInfix(Origin + "nl", ToolMarkers[1], rest);
      assert ToolMarkers[1] == "/tools" + "/";
      assert Origin + "nl" + ToolMarkers[1] + rest == DutchKitBuilder;
    }
    assert |DutchKitBuilder| != |Origin + "nl/"|;
  }

  /** A kept page never holds a legal-page directory, and a page holding
      one is dropped. */
  lemma KeepDropsLegalPages(prefix: string, i: nat, suffix: string)
    requires i < |ExcludedMarkers|
    ensures !Keep(prefix + ExcludedMarkers[i] + suffix)
  {
    ContainsInfix(prefix, ExcludedMarkers[i], suffix);
  }
}
