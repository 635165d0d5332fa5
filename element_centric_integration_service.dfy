/**
 * The integration service (core/element_centric_integration_service.py):
 * it runs a conversion in one of four modes, falls back to the legacy
 * story-by-story conversion when the element-centric one fails or its
 * result is of poor quality, picks a mode by the size of the model in
 * automatic mode, and keeps a history of conversions and a fallback count.
 *
 * The two conversions themselves are parameters: whether the legacy one
 * succeeds (`legacyOk`; it then reports zero statistics) and the statistics
 * of the element-centric one, `None` when it raises. An exception of the
 * service is `None`. Times and time stamps are not modelled.
 */
module IntegrationService {
  import opened Wrappers
  import opened Values
  import opened ElementCentricConverter

  datatype Mode = LEGACY | ELEMENT_CENTRIC | HYBRID | AUTO

  /** `mode.value`. */
  function ModeValue(m: Mode): string
  {
    match m
    case LEGACY => "legacy"
    case ELEMENT_CENTRIC => "element_centric"
    case HYBRID => "hybrid"
    case AUTO => "auto"
  }

  /** The fields of `IntegrationConfig` the service reads, other than the mode. */
  datatype Settings = Settings(enableFallback: bool, duplicateTolerance: int, confidenceThreshold: real)

  /** `IntegrationConfig()`: fallback on, no duplicate tolerated, confidence 0.7. */
  const DefaultSettings := Settings(true, 0, 0.7)

  /** The statistics `_create_legacy_conversion_result` reports: all zero. */
  const LegacyStats := Stats(0, 0, 0, 0, map[], map[])

  // ------------------------------------------------------------ quality

  /** `analysis_method_counts.get('coordinates', 0)`. */
  function Coordinates(s: Stats): int
  {
    if Str("coordinates") in s.methodCounts then s.methodCounts[Str("coordinates")] else 0
  }

  /**
   * `_validate_conversion_quality`: no failure, no more duplicates than
   * tolerated, and, when elements were created, a share of elements placed
   * by coordinates of at most `1 - confidence_threshold`.
   */
  predicate Quality(s: Stats, settings: Settings)
  {
    if s.failed > 0 then false
    else if s.duplicates > settings.duplicateTolerance then false
    else if s.created > 0 && Coordinates(s) as real / s.created as real > 1.0 - settings.confidenceThreshold then false
    else true
  }

  /** The quality check without division: the coordinate count against the allowed share of the created count. */
  lemma QualityIff(s: Stats, settings: Settings)
    ensures Quality(s, settings) <==>
      s.failed <= 0 && s.duplicates <= settings.duplicateTolerance
      && (s.created > 0 ==> Coordinates(s) as real <= (1.0 - settings.confidenceThreshold) * s.created as real)
  {
    if s.created > 0 {
      ShareAbove(Coordinates(s), s.created, 1.0 - settings.confidenceThreshold);
    }
  }

  /** A share `a / b` of a positive `b` exceeds `c` exactly when `a` exceeds `c * b`. */
  lemma ShareAbove(a: int, b: int, c: real)
    requires b > 0
    ensures a as real / b as real > c <==> a as real > c * b as real
  {
    var q := a as real / b as real;
    assert q * b as real == a as real;
  }

  /** The legacy result passes the quality check whatever the settings. */
  lemma LegacyPassesQuality(settings: Settings)
    requires settings.duplicateTolerance >= 0
    ensures Quality(LegacyStats, settings)
  {
  }

  // ------------------------------------------------------------ mode choice

  /** The automatic choice: large models element-centric, small ones legacy, the rest hybrid. */
  function ChooseMode(totalElements: int, storyCount: int): (m: Mode)
    ensures totalElements > 1000 || storyCount > 10 ==> m == ELEMENT_CENTRIC
    ensures !(totalElements > 1000 || storyCount > 10) && totalElements < 100 && storyCount < 3 ==> m == LEGACY
    ensures !(totalElements > 1000 || storyCount > 10) && !(totalElements < 100 && storyCount < 3) ==> m == HYBRID
  {
    if totalElements > 1000 || storyCount > 10 then ELEMENT_CENTRIC
    else if totalElements < 100 && storyCount < 3 then LEGACY
    else HYBRID
  }

  /** Automatic mode never chooses itself. */
  lemma ChooseModeIsConcrete(totalElements: int, storyCount: int)
    ensures ChooseMode(totalElements, storyCount) != AUTO
  {
  }

  // ------------------------------------------------------------ the conversion, as a function

  /** What one conversion does: its result, how many fallbacks it counts and the modes it writes to the history, in order. */
  datatype Outcome = Outcome(result: Option<Stats>, fallbacks: nat, modes: seq<Mode>)

  /** `_execute_legacy_conversion`. */
  function Legacy(legacyOk: bool): Option<Stats>
  {
    if legacyOk then Some(LegacyStats) else None
  }

  /**
   * `_execute_hybrid_conversion`: the element-centric result when it passes
   * the quality check; otherwise a fallback to legacy. When that fails after
   * a poor result, the failure is caught by the same handler, which falls
   * back once more before raising.
   */
  function Hybrid(settings: Settings, legacyOk: bool, centric: Option<Stats>): (o: Outcome)
    ensures o.modes == []
    ensures centric.Some? && Quality(centric.value, settings) ==> o == Outcome(centric, 0, [])
    ensures !(centric.Some? && Quality(centric.value, settings)) ==> o.result == Legacy(legacyOk) && o.fallbacks >= 1
  {
    match centric
    case Some(s) =>
      if Quality(s, settings) then Outcome(centric, 0, [])
      else if legacyOk then Outcome(Legacy(legacyOk), 1, [])
      else Outcome(None, 2, [])
    case None =>
      if legacyOk then Outcome(Legacy(legacyOk), 1, []) else Outcome(None, 1, [])
  }

  /** The work of one mode before `convert_with_integration`'s own handler. */
  function Body(mode: Mode, settings: Settings, total: int, stories: int, legacyOk: bool, centric: Option<Stats>): (o: Outcome)
    ensures mode != AUTO ==> o.modes == []
    decreases if mode == AUTO then 1 else 0, 0
  {
    match mode
    case LEGACY => Outcome(Legacy(legacyOk), 0, [])
    case ELEMENT_CENTRIC => Outcome(centric, 0, [])
    case HYBRID => Hybrid(settings, legacyOk, centric)
    case AUTO => Run(ChooseMode(total, stories), settings, total, stories, legacyOk, centric)
  }

  /**
   * `convert_with_integration` in `mode`: a failure of a mode other than
   * legacy falls back to legacy when fallback is enabled; the mode is
   * written to the history in any case, after the modes of any inner run.
   */
  function Run(mode: Mode, settings: Settings, total: int, stories: int, legacyOk: bool, centric: Option<Stats>): (o: Outcome)
    ensures |o.modes| >= 1 && o.modes[|o.modes| - 1] == mode
    ensures mode != AUTO ==> o.modes == [mode]
    ensures mode == LEGACY ==> o == Outcome(Legacy(legacyOk), 0, [LEGACY])
    decreases if mode == AUTO then 1 else 0, 1
  {
    Handled(Body(mode, settings, total, stories, legacyOk, centric), mode, settings, legacyOk)
  }

  lemma RunIsHandled(mode: Mode, settings: Settings, total: int, stories: int, legacyOk: bool, centric: Option<Stats>)
    ensures Run(mode, settings, total, stories, legacyOk, centric) == Handled(Body(mode, settings, total, stories, legacyOk, centric), mode, settings, legacyOk)
  {
  }

  /** `convert_with_integration`'s own handler around the work `b` of a mode. */
  function Handled(b: Outcome, mode: Mode, settings: Settings, legacyOk: bool): Outcome
  {
    if b.result.None? && settings.enableFallback && mode != LEGACY then
      Outcome(Legacy(legacyOk), b.fallbacks + 1, b.modes + [mode])
    else
      Outcome(b.result, b.fallbacks, b.modes + [mode])
  }

  /** With fallback enabled and a working legacy conversion, every conversion returns a result. */
  lemma {:induction false} FallbackAlwaysSucceeds(mode: Mode, settings: Settings, total: int, stories: int, legacyOk: bool, centric: Option<Stats>)
    requires settings.enableFallback && legacyOk
    ensures Run(mode, settings, total, stories, legacyOk, centric).result.Some?
    decreases if mode == AUTO then 1 else 0
  {
    if mode == AUTO {
      FallbackAlwaysSucceeds(ChooseMode(total, stories), settings, total, stories, legacyOk, centric);
    }
  }

  /** A hybrid run whose element-centric result is good enough uses it and does not fall back. */
  lemma GoodHybridKeepsResult(settings: Settings, total: int, stories: int, legacyOk: bool, s: Stats)
    requires Quality(s, settings)
    ensures Run(HYBRID, settings, total, stories, legacyOk, Some(s)) == Outcome(Some(s), 0, [HYBRID])
  {
  }

  /** An automatic run writes two history entries: the chosen mode, then "auto". */
  lemma AutoWritesTwoEntries(settings: Settings, total: int, stories: int, legacyOk: bool, centric: Option<Stats>)
    ensures Run(AUTO, settings, total, stories, legacyOk, centric).modes == [ChooseMode(total, stories), AUTO]
  {
    ChooseModeIsConcrete(total, stories);
  }

  // ------------------------------------------------------------ history and statistics

  /** One entry of `conversion_history`, without its time figures. */
  datatype HistoryEntry = HistoryEntry(mode: Mode, elementCount: int)

  /** The history entries of the given modes, each with the same element count. */
  function Entries(modes: seq<Mode>, total: int): (es: seq<HistoryEntry>)
    ensures |es| == |modes|
  {
    seq(|modes|, i requires 0 <= i < |modes| => HistoryEntry(modes[i], total))
  }

  /** One more mode, one more entry. */
  lemma EntriesSnoc(modes: seq<Mode>, m: Mode, total: int)
    ensures Entries(modes + [m], total) == Entries(modes, total) + [HistoryEntry(m, total)]
  {
  }

  /** How many entries of the history were made in mode `m`. */
  function ModeUsage(h: seq<HistoryEntry>, m: Mode): nat
  {
    if h == [] then 0 else ModeUsage(h[..|h| - 1], m) + (if h[|h| - 1].mode == m then 1 else 0)
  }

  /** The mode usage over the four modes accounts for every entry. */
  lemma {:induction false} ModeUsageTotal(h: seq<HistoryEntry>)
    ensures ModeUsage(h, LEGACY) + ModeUsage(h, ELEMENT_CENTRIC) + ModeUsage(h, HYBRID) + ModeUsage(h, AUTO) == |h|
  {
    if h != [] {
      ModeUsageTotal(h[..|h| - 1]);
    }
  }

  /** The integration statistics, without the average processing time. */
  datatype Statistics = Statistics(
    totalConversions: nat,
    fallbackCount: nat,
    fallbackRate: real,
    modeUsage: map<string, nat>,
    performanceImprovements: seq<real>)

  /** The recommendation of `compare_performance` from the improvement in percent and the element-centric duplicates. */
  function Recommend(improvement: real, duplicates: int): (m: Mode)
    ensures m == ELEMENT_CENTRIC <==> improvement > 30.0 && duplicates == 0
    ensures m == HYBRID <==> improvement > 10.0 && !(improvement > 30.0 && duplicates == 0)
    ensures m == LEGACY <==> improvement <= 10.0
  {
    if improvement > 30.0 && duplicates == 0 then ELEMENT_CENTRIC
    else if improvement > 10.0 then HYBRID
    else LEGACY
  }

  /** `ElementCentricIntegrationService`: the configured mode, the history and the counters. */
  class Service {
    var mode: Mode
    const settings: Settings
    var history: seq<HistoryEntry>
    var fallbackCount: nat
    var improvements: seq<real>

    constructor(mode: Mode, settings: Settings)
      ensures this.mode == mode && this.settings == settings
      ensures history == [] && fallbackCount == 0 && improvements == []
    {
      this.mode := mode;
      this.settings := settings;
      history := [];
      fallbackCount := 0;
      improvements := [];
    }

    /**
     * `convert_with_integration`: runs the configured mode as `Run` says (`RunIsHandled`),
     * counts its fallbacks, appends its history entries and leaves the
     * configured mode as it found it.
     */
    method ConvertWithIntegration(total: int, stories: int, legacyOk: bool, centric: Option<Stats>) returns (r: Option<Stats>)
      modifies this
      decreases if mode == AUTO then 1 else 0, 2
      ensures mode == old(mode) && improvements == old(improvements)
      ensures r == Handled(Body(old(mode), settings, total, stories, legacyOk, centric), old(mode), settings, legacyOk).result
      ensures fallbackCount == old(fallbackCount) + Handled(Body(old(mode), settings, total, stories, legacyOk, centric), old(mode), settings, legacyOk).fallbacks
      ensures history == old(history) + Entries(Handled(Body(old(mode), settings, total, stories, legacyOk, centric), old(mode), settings, legacyOk).modes, total)
    {
      ghost var b := Body(mode, settings, total, stories, legacyOk, centric);
      ghost var o := Handled(b, mode, settings, legacyOk);
      ghost var f0 := fallbackCount;
      var body := ExecuteMode(total, stories, legacyOk, centric);
      if body.None? && settings.enableFallback && mode != LEGACY {
        fallbackCount := fallbackCount + 1;
        body := Legacy(legacyOk);
      }
      assert body == o.result && fallbackCount == f0 + o.fallbacks;
      r := body;
      EntriesSnoc(b.modes, mode, total);
      history := history + [HistoryEntry(mode, total)];
    }

    /** The dispatch on the configured mode inside `convert_with_integration`'s handler. */
    method ExecuteMode(total: int, stories: int, legacyOk: bool, centric: Option<Stats>) returns (body: Option<Stats>)
      modifies this
      decreases if mode == AUTO then 1 else 0, 1
      ensures mode == old(mode) && improvements == old(improvements)
      ensures body == Body(mode, settings, total, stories, legacyOk, centric).result
      ensures fallbackCount == old(fallbackCount) + Body(mode, settings, total, stories, legacyOk, centric).fallbacks
      ensures history == old(history) + Entries(Body(mode, settings, total, stories, legacyOk, centric).modes, total)
    {
      if mode == LEGACY {
        body := Legacy(legacyOk);
      } else if mode == ELEMENT_CENTRIC {
        body := centric;
      } else if mode == HYBRID {
        body := ExecuteHybrid(legacyOk, centric);
      } else {
        body := ExecuteAuto(total, stories, legacyOk, centric);
      }
    }

    /** `_execute_hybrid_conversion`: counts its fallbacks and returns what `Hybrid` says. */
    method ExecuteHybrid(legacyOk: bool, centric: Option<Stats>) returns (r: Option<Stats>)
      modifies this
      ensures mode == old(mode) && history == old(history) && improvements == old(improvements)
      ensures r == Hybrid(settings, legacyOk, centric).result
      ensures fallbackCount == old(fallbackCount) + Hybrid(settings, legacyOk, centric).fallbacks
    {
      if centric.Some? && Quality(centric.value, settings) {
        return centric;
      }
      fallbackCount := fallbackCount + 1;
      if legacyOk {
        return Legacy(legacyOk);
      }
      if centric.Some? {
        // the failed fallback raises inside the same handler, which falls back again
        fallbackCount := fallbackCount + 1;
      }
      r := None;
    }

    /**
     * `_execute_auto_conversion`: sets the chosen mode, converts in it and
     * restores the configured mode afterwards.
     */
    method ExecuteAuto(total: int, stories: int, legacyOk: bool, centric: Option<Stats>) returns (r: Option<Stats>)
      requires mode == AUTO
      modifies this
      decreases 1, 0
      ensures mode == old(mode) && improvements == old(improvements)
      ensures r == Run(ChooseMode(total, stories), settings, total, stories, legacyOk, centric).result
      ensures fallbackCount == old(fallbackCount) + Run(ChooseMode(total, stories), settings, total, stories, legacyOk, centric).fallbacks
      ensures history == old(history) + Entries(Run(ChooseMode(total, stories), settings, total, stories, legacyOk, centric).modes, total)
    {
      var selected := ChooseMode(total, stories);
      var original := mode;
      mode := selected;
      r := ConvertWithIntegration(total, stories, legacyOk, centric);
      mode := original;
      RunIsHandled(selected, settings, total, stories, legacyOk, centric);
    }

    /**
     * `compare_performance`, with the two measured times as inputs: both
     * conversions must succeed and the legacy time must be non-zero; the
     * improvement is recorded.
     */
    method ComparePerformance(legacyTime: real, centricTime: real, legacyOk: bool, centric: Option<Stats>) returns (r: Option<(real, Mode)>)
      modifies this
      ensures mode == old(mode) && history == old(history) && fallbackCount == old(fallbackCount)
      ensures r.None? <==> !legacyOk || centric.None? || legacyTime == 0.0
      ensures r.Some? ==> r.value.0 * legacyTime == (legacyTime - centricTime) * 100.0
      ensures r.Some? ==> r.value.1 == Recommend(r.value.0, centric.value.duplicates)
      ensures r.Some? ==> improvements == old(improvements) + [r.value.0]
      ensures r.None? ==> improvements == old(improvements)
    {
      if !legacyOk || centric.None? || legacyTime == 0.0 {
        return None;
      }
      var improvement := ((legacyTime - centricTime) / legacyTime) * 100.0;
      ImprovementTimesLegacy(legacyTime, centricTime);
      var recommendation := Recommend(improvement, centric.value.duplicates);
      improvements := improvements + [improvement];
      r := Some((improvement, recommendation));
    }

    /** `get_integration_statistics`. */
    function GetIntegrationStatistics(): (s: Statistics)
      reads this
      ensures s.totalConversions == |history| && s.fallbackCount == fallbackCount
      ensures history == [] ==> s.fallbackRate == 0.0
      ensures history != [] ==> s.fallbackRate * |history| as real == fallbackCount as real
      ensures s.modeUsage.Keys == {"legacy", "element_centric", "hybrid", "auto"}
      ensures forall m: Mode :: s.modeUsage[ModeValue(m)] == ModeUsage(history, m)
      ensures s.performanceImprovements == improvements
    {
      var rate := if history != [] then fallbackCount as real / |history| as real else 0.0;
      assert history != [] ==> rate * |history| as real == fallbackCount as real;
      Statistics(|history|, fallbackCount, rate,
        map["legacy" := ModeUsage(history, LEGACY), "element_centric" := ModeUsage(history, ELEMENT_CENTRIC),
            "hybrid" := ModeUsage(history, HYBRID), "auto" := ModeUsage(history, AUTO)],
        improvements)
    }
  }

  /** `((legacy - centric) / legacy) * 100` times the legacy time. */
  lemma ImprovementTimesLegacy(legacyTime: real, centricTime: real)
    requires legacyTime != 0.0
    ensures (((legacyTime - centricTime) / legacyTime) * 100.0) * legacyTime == (legacyTime - centricTime) * 100.0
  {
    var q := (legacyTime - centricTime) / legacyTime;
    assert q * legacyTime == legacyTime - centricTime;
  }
}
