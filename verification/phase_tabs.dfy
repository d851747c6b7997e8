/**
 * `PhaseTabs`: the before/during/after tabs on scenario pages. It resolves
 * which phases to show, tracks the active one, and records the phases the
 * reader has scrolled past, persisting them under "phases_" + scenario key.
 */
module PhaseTabs {
  import opened Wrappers
  import opened Seqs
  import opened OrderedSet
  import opened Json
  import opened Storage

  datatype Phase = Phase(id: string, name: string, icon: string)

  datatype PhaseLabels = PhaseLabels(before: string, during: string, after: string)

  datatype PhaseIds = PhaseIds(before: string, during: string, after: string)

  datatype LocaleConfig = LocaleConfig(labels: PhaseLabels, ids: PhaseIds)

  const EsConfig: LocaleConfig :=
    LocaleConfig(PhaseLabels("Antes", "Durante", "Después"), PhaseIds("antes", "durante", "despues"))
  const NlConfig: LocaleConfig :=
    LocaleConfig(PhaseLabels("Vooraf", "Tijdens", "Daarna"), PhaseIds("voor", "tijdens", "na"))
  const DeConfig: LocaleConfig :=
    LocaleConfig(PhaseLabels("Vorher", "Während", "Danach"), PhaseIds("vorher", "waehrend", "danach"))

  /** `phaseConfigPerLocale[locale] || phaseConfigPerLocale.es`. A name the
      table inherits finds a function, which has no labels or ids: `None`. */
  function ConfigFor(locale: string): (r: Option<LocaleConfig>)
    ensures r.None? <==> locale in ObjectPrototypeNames
    ensures locale == "nl" ==> r == Some(NlConfig)
    ensures locale == "de" ==> r == Some(DeConfig)
    ensures locale !in {"nl", "de"} && locale !in ObjectPrototypeNames ==> r == Some(EsConfig)
  {
    if locale == "nl" then Some(NlConfig)
    else if locale == "de" then Some(DeConfig)
    else if locale in ObjectPrototypeNames then None
    else Some(EsConfig)
  }

  /** `buildPhasesFromLabels`: the three phases in order, with the given ids
      or the Spanish ones. */
  function BuildPhases(labels: PhaseLabels, ids: Option<PhaseIds>): (r: seq<Phase>)
    ensures |r| == 3
    ensures r[0].name == labels.before && r[1].name == labels.during && r[2].name == labels.after
    ensures r[0].icon == "shield" && r[1].icon == "activity" && r[2].icon == "check-circle"
  {
    var i := ids.GetOr(EsConfig.ids);
    [Phase(i.before, labels.before, "shield"),
     Phase(i.during, labels.during, "activity"),
     Phase(i.after, labels.after, "check-circle")]
  }

  /** The phases shown: explicit phases, else phases built from explicit
      labels, else the locale's configuration (with `phaseIds` overriding its
      ids). `None` when the locale finds no configuration and building from
      its missing labels throws. */
  function Resolve(locale: string, phases: Option<seq<Phase>>, labels: Option<PhaseLabels>,
                   ids: Option<PhaseIds>): (r: Option<seq<Phase>>)
    ensures phases.Some? ==> r == phases
    ensures r.None? <==> phases.None? && labels.None? && locale in ObjectPrototypeNames
    ensures phases.None? && r.Some? ==> |r.value| == 3
  {
    if phases.Some? then phases
    else if labels.Some? then Some(BuildPhases(labels.value, ids))
    else
      match ConfigFor(locale)
      case None => None
      case Some(cfg) => Some(BuildPhases(cfg.labels, Some(ids.GetOr(cfg.ids))))
  }

  /** `resolvedPhases[0]?.id || ''`. */
  function InitialActive(phases: seq<Phase>): (r: string)
    ensures phases == [] ==> r == ""
    ensures phases != [] ==> r == phases[0].id
  {
    if phases == [] then "" else phases[0].id
  }

  datatype TabsState = TabsState(active: string, completed: seq<string>)

  /** `resolvedPhases.findIndex(p => p.id === activePhase)`, -1 when absent. */
  function FindIndex(phases: seq<Phase>, id: string): (r: int)
    ensures -1 <= r < |phases|
    ensures r >= 0 ==> phases[r].id == id && forall j :: 0 <= j < r ==> phases[j].id != id
    ensures r == -1 <==> forall j :: 0 <= j < |phases| ==> phases[j].id != id
  {
    if phases == [] then -1
    else if phases[0].id == id then 0
    else
      var k := FindIndex(phases[1..], id);
      if k == -1 then -1 else k + 1
  }

  /** The completed set with the ids of the first `n` phases added in order. */
  function AddFirst(completed: seq<string>, phases: seq<Phase>, n: nat): (r: seq<string>)
    requires n <= |phases|
    ensures forall x :: x in r <==> x in completed || exists j :: 0 <= j < n && phases[j].id == x
    ensures NoDup(completed) ==> NoDup(r)
  {
    if n == 0 then completed
    else
      var prev := AddFirst(completed, phases, n - 1);
      Add(prev, phases[n - 1].id)
  }

  /** The completion effect: past phases are added; the set and the write
      happen only when the size changed. Returns the new state and the list
      written, if any. */
  function MarkCompleted(phases: seq<Phase>, s: TabsState): (r: (TabsState, Option<seq<string>>))
    ensures r.0.active == s.active
  {
    var i := FindIndex(phases, s.active);
    if i > 0 then
      var next := AddFirst(s.completed, phases, i);
      if |next| != |s.completed| then (s.(completed := next), Some(next)) else (s, None)
    else (s, None)
  }

  /** The completion effect with its unguarded write. */
  function MarkAndPersist(phases: seq<Phase>, s: TabsState, st: Storage, c: Codec, scenarioKey: string)
    : (r: (TabsState, Outcome))
    ensures r.0 == MarkCompleted(phases, s).0
    ensures MarkCompleted(phases, s).1.None? ==> r.1 == Completed(st)
    ensures MarkCompleted(phases, s).1.Some? ==> (r.1.Completed? <==> st.available)
    ensures r.1.store.available == st.available
    ensures r.1.Threw? ==> r.1.store == st
    ensures MarkCompleted(phases, s).1.Some? && st.available
            ==> PhasesKey(scenarioKey) in r.1.store.data
                && r.1.store.data[PhasesKey(scenarioKey)] == c.encode(StrArray(MarkCompleted(phases, s).1.value))
    ensures forall k :: k != PhasesKey(scenarioKey) ==> (k in r.1.store.data <==> k in st.data)
    ensures forall k :: k != PhasesKey(scenarioKey) && k in st.data ==> r.1.store.data[k] == st.data[k]
  {
    var m := MarkCompleted(phases, s);
    match m.1
    case None => (m.0, Completed(st))
    case Some(list) => (m.0, WriteUnguarded(st, c, PhasesKey(scenarioKey), StrArray(list)))
  }

  /** The load effect: a parsable stored list replaces the completed set
      (`null` empties it); anything else stored is ignored. `None` when
      reading storage throws. */
  function Load(st: Storage, c: Codec, scenarioKey: string, s: TabsState): (r: Option<TabsState>)
    ensures r.None? <==> !st.available
    ensures r.Some? ==> r.value.active == s.active
    ensures r.Some? && NoDup(s.completed) ==> NoDup(r.value.completed)
    ensures st.available && PhasesKey(scenarioKey) !in st.data ==> r == Some(s)
  {
    if !st.available then None
    else
      var key := PhasesKey(scenarioKey);
      if key in st.data && st.data[key] != "" then
        match c.decode(st.data[key])
        case Some(j) =>
          if j.JNull? then Some(s.(completed := []))
          else (match AsStrings(j)
                case Some(xs) => Some(s.(completed := FromSeq(xs)))
                case None => Some(s))
        case None => Some(s)
      else Some(s)
  }

  datatype PhaseState = CompletedPhase | ActivePhase | Upcoming

  /** `getPhaseState`. */
  function GetPhaseState(s: TabsState, id: string): (r: PhaseState)
    ensures r == CompletedPhase <==> id in s.completed
    ensures r == ActivePhase <==> id !in s.completed && id == s.active
  {
    if id in s.completed then CompletedPhase
    else if id == s.active then ActivePhase
    else Upcoming
  }

  /** `handleTabClick`: only the active phase changes. */
  function TabClick(s: TabsState, id: string): (r: TabsState)
    ensures r.active == id && r.completed == s.completed
  {
    s.(active := id)
  }

  // ---------------------------------------------------------------- lemmas

  /** Resolution precedence: explicit phases win over labels, labels over
      the locale; an unknown locale uses the Spanish phases, and a name the
      table inherits throws; `phaseIds` overrides the locale's ids. */
  lemma ResolvePrecedence(locale: string, phases: seq<Phase>, labels: PhaseLabels, ids: PhaseIds)
    ensures Resolve(locale, Some(phases), Some(labels), Some(ids)) == Some(phases)
    ensures Resolve(locale, None, Some(labels), None) == Some(BuildPhases(labels, Some(EsConfig.ids)))
    ensures locale !in {"nl", "de"} && locale !in ObjectPrototypeNames ==>
              Resolve(locale, None, None, None)
              == Some([Phase("antes", "Antes", "shield"), Phase("durante", "Durante", "activity"),
                       Phase("despues", "Después", "check-circle")])
    ensures locale in ObjectPrototypeNames ==> Resolve(locale, None, None, None).None?
    ensures var r := Resolve(locale, None, None, Some(ids));
            r.Some? ==> r.value[0].id == ids.before && r.value[1].id == ids.during && r.value[2].id == ids.after
    ensures Resolve("de", None, None, None) == Some(BuildPhases(DeConfig.labels, Some(DeConfig.ids)))
    ensures Resolve("de", None, None, None).value[1] == Phase("waehrend", "Während", "activity")
    ensures Resolve("nl", None, None, None).value[0] == Phase("voor", "Vooraf", "shield")
  {
  }

  /** When the active phase is at index i > 0, every earlier phase is marked
      completed, nothing is unmarked, and the set is written exactly when its
      size changed. */
  lemma MarkCompletedEffect(phases: seq<Phase>, s: TabsState)
    requires NoDup(s.completed)
    ensures var r := MarkCompleted(phases, s);
            var i := FindIndex(phases, s.active);
            && (forall x :: x in s.completed ==> x in r.0.completed)
            && (i > 0 ==> forall j :: 0 <= j < i ==> phases[j].id in r.0.completed)
            && (forall x :: x in r.0.completed ==> x in s.completed || exists j :: 0 <= j < i && phases[j].id == x)
            && (r.1.Some? <==> |r.0.completed| != |s.completed|)
            && (r.1.Some? ==> r.1.value == r.0.completed)
            && NoDup(r.0.completed)
  {
    var i := FindIndex(phases, s.active);
    if i > 0 {
      var next := AddFirst(s.completed, phases, i);
      assert forall j :: 0 <= j < i ==> phases[j].id in next;
      if |next| == |s.completed| {
        forall x | x in next
          ensures x in s.completed
        {
          if x !in s.completed {
            NoDupCard(s.completed);
            CardFromSeq(Elems(s.completed) + {x}, next);
          }
        }
      }
    }
  }

  /** Marking is idempotent: a second run for the same active phase neither
      changes the set nor writes. */
  lemma MarkCompletedIdempotent(phases: seq<Phase>, s: TabsState)
    requires NoDup(s.completed)
    ensures var once := MarkCompleted(phases, s).0;
            MarkCompleted(phases, once) == (once, None)
  {
    var once := MarkCompleted(phases, s).0;
    MarkCompletedEffect(phases, s);
    var i := FindIndex(phases, s.active);
    if i > 0 {
      var again := AddFirst(once.completed, phases, i);
      assert forall x :: x in again <==> x in once.completed;
      AddFirstNoNew(once.completed, phases, i);
    }
  }

  /** Adding members that are already present changes nothing. */
  lemma {:induction false} AddFirstNoNew(completed: seq<string>, phases: seq<Phase>, n: nat)
    requires n <= |phases|
    requires forall j :: 0 <= j < n ==> phases[j].id in completed
    ensures AddFirst(completed, phases, n) == completed
  {
    if n > 0 {
      AddFirstNoNew(completed, phases, n - 1);
    }
  }

  /** Each completion-effect run keeps the size from shrinking, so the
      persisted set only grows. */
  lemma CompletedNeverShrinks(phases: seq<Phase>, s: TabsState)
    requires NoDup(s.completed)
    ensures |MarkCompleted(phases, s).0.completed| >= |s.completed|
  {
    var i := FindIndex(phases, s.active);
    if i > 0 {
      var next := AddFirst(s.completed, phases, i);
      NoDupCard(s.completed);
      CardFromSeq(Elems(s.completed), next);
    }
  }

  /** A completed phase shows as completed even when it is active; a tab
      click on a phase that is not completed makes it active. */
  lemma PhaseStateAfterClick(s: TabsState, id: string, other: string)
    ensures id !in s.completed ==> GetPhaseState(TabClick(s, id), id) == ActivePhase
    ensures id in s.completed ==> GetPhaseState(TabClick(s, id), id) == CompletedPhase
    ensures other != id && other !in s.completed ==> GetPhaseState(TabClick(s, id), other) == Upcoming
  {
  }

  /** What the completion effect writes reads back as the completed list. */
  lemma PersistReadsBack(phases: seq<Phase>, s: TabsState, st: Storage, c: Codec, scenarioKey: string)
    requires Lawful(c) && st.available
    requires MarkCompleted(phases, s).1.Some?
    ensures var r := MarkAndPersist(phases, s, st, c, scenarioKey);
            r.1.Completed? && GetCompletedPhases(r.1.store, c, scenarioKey) == StrArray(r.0.completed)
  {
  }

  /** Loading after the completion effect wrote restores the completed set,
      in its order. */
  lemma LoadAfterPersist(phases: seq<Phase>, s: TabsState, t: TabsState, st: Storage, c: Codec, scenarioKey: string)
    requires Lawful(c) && st.available && NoDup(s.completed)
    requires MarkCompleted(phases, s).1.Some?
    ensures var r := MarkAndPersist(phases, s, st, c, scenarioKey);
            Load(r.1.store, c, scenarioKey, t) == Some(t.(completed := r.0.completed))
  {
    var m := MarkCompleted(phases, s);
    MarkCompletedEffect(phases, s);
    var list := m.1.value;
    assert list == m.0.completed && NoDup(list);
    var key := PhasesKey(scenarioKey);
    var st1 := SetItem(st, c, key, StrArray(list)).0;
    assert MarkAndPersist(phases, s, st, c, scenarioKey) == (m.0, Completed(st1));
    assert st1.data[key] == c.encode(StrArray(list));
    assert c.decode(st1.data[key]) == Some(StrArray(list));
    StrArrayRoundTrip(list);
    DistinctOfNoDup(list);
    assert FromSeq(list) == list;
  }
}
