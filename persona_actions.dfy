/**
 * `app/quiz/actions/persona-actions.ts`: the server actions the quiz pages
 * call. Each one pairs the Redis cache (`PersonaCache`) with the Postgres
 * store (`PersonaDb`): writes go to both, reads try the cache first and
 * fall back to the database. Every failure of a store is an oracle
 * parameter; the clocks are parameters and the base-36 random text is `suffix`.
 */
module PersonaActions {
  import opened Options
  import opened Traits
  import opened Numerals
  import opened PersonaService
  import opened DbPersonaService

  const CACHE_ONLY_WARNING := "Stored in cache only"
  const DB_PERSONAS_WARNING := "Could not fetch personas from database"
  const DB_STATS_WARNING := "Could not fetch stats from database"
  const FALLBACK_PREFIX := "local-"

  /** `storePersona`'s answer; `success: false` has no input that reaches it (see `StorePersona`). */
  datatype StoreReply = Stored(id: string, warning: Option<string>)

  /** `updatePersonaImageUrl`'s answer. */
  datatype UpdateReply = Updated | UpdateFailed

  /** `fetchRecentPersonas`'s answer. */
  datatype RecentReply = Recent(personas: seq<Persona>, warning: Option<string>) | RecentFailed

  /** `fetchPersonaStats`'s answer. */
  datatype StatsReply = Stats(stats: Scores, warning: Option<string>) | StatsFailed

  /** The id used when the cache refused the save: `local-<ms>-<random>`. */
  function FallbackId(now: nat, suffix: string): string
  {
    FALLBACK_PREFIX + ToString(now, 10) + "-" + suffix
  }

  /** A fallback id is longer than `local-` and starts with it. */
  lemma {:induction false} FallbackIdPrefix(now: nat, suffix: string)
    ensures var id := FallbackId(now, suffix); |id| > |FALLBACK_PREFIX| && id[..|FALLBACK_PREFIX|] == FALLBACK_PREFIX
  {
  }

  /** A fallback id gives back the millisecond clock it was made from. */
  lemma {:induction false} FallbackIdClock(now: nat, suffix: string)
    ensures ParseInt(FallbackId(now, suffix)[|FALLBACK_PREFIX|..], 10) == Some(now)
  {
    var rest := "-" + suffix;
    assert FallbackId(now, suffix)[|FALLBACK_PREFIX|..] == ToString(now, 10) + rest;
    assert DigitValue(rest[0]) == -1;
    ParseToString(now, 10, rest);
  }

  /** Fallback ids drawn at different milliseconds never collide, whatever the random text. */
  lemma {:induction false} FallbackIdsDistinct(now1: nat, suffix1: string, now2: nat, suffix2: string)
    requires now1 != now2
    ensures FallbackId(now1, suffix1) != FallbackId(now2, suffix2)
  {
    FallbackIdClock(now1, suffix1);
    FallbackIdClock(now2, suffix2);
  }

  /** `image_url || undefined`: an empty stored url reads back as absent. */
  function ReadImage(url: Option<string>): (r: Option<string>)
    ensures r.Some? <==> Truthy(url)
    ensures r.Some? ==> r == url
  {
    if Truthy(url) then url else None
  }

  /** The persona record `fetchRecentPersonas` builds from a database row. */
  function FromRow(row: PersonaRow): (p: Persona)
    ensures p.id == row.externalId && p.dominantTrait == Some(row.dominantTrait) && p.createdAt == Some(row.createdAt)
    ensures p.imageUrl == ReadImage(row.imageUrl)
    ensures p.agentName == row.agentName && p.tagline == row.tagline
    ensures p.personalityTraits == row.personalityTraits && p.specialization == row.specialization
    ensures p.communicationStyle == row.communicationStyle && p.appearance == row.appearance
    ensures p.backstory == row.backstory && p.specialAbilities == row.specialAbilities
  {
    Persona(row.externalId, row.agentName, row.tagline, row.personalityTraits, row.specialization,
            row.communicationStyle, row.appearance, row.backstory, row.specialAbilities,
            ReadImage(row.imageUrl), Some(row.dominantTrait), Some(row.createdAt))
  }

  /** `dbPersonas.map(...)`. */
  function FromRows(rows: seq<PersonaRow>): (r: seq<Persona>)
    ensures |r| == |rows| && forall i :: 0 <= i < |rows| ==> r[i] == FromRow(rows[i])
  {
    seq(|rows|, i requires 0 <= i < |rows| => FromRow(rows[i]))
  }

  /**
   * The record read back from the database is the record the cache holds
   * for the same save, except that an empty image url is dropped and the
   * creation time is the database's clock (`DEFAULT CURRENT_TIMESTAMP`)
   * rather than the server's `Date.now()`: both carry the cache id and the
   * dominant trait.
   */
  lemma {:induction false} RowReadsBackAsCached(serial: int, persona: Persona, id: string, dominantTrait: string,
                                                now: int, dbNow: int)
    ensures FromRow(NewRow(serial, persona.(id := Some(id)), dominantTrait, dbNow))
         == Saved(persona, id, dominantTrait, now).(imageUrl := ReadImage(persona.imageUrl), createdAt := Some(dbNow))
    ensures Truthy(persona.imageUrl) || persona.imageUrl.None? ==>
      FromRow(NewRow(serial, persona.(id := Some(id)), dominantTrait, dbNow)) == Saved(persona, id, dominantTrait, now).(createdAt := Some(dbNow))
    ensures now == dbNow && (Truthy(persona.imageUrl) || persona.imageUrl.None?) ==>
      FromRow(NewRow(serial, persona.(id := Some(id)), dominantTrait, dbNow)) == Saved(persona, id, dominantTrait, now)
  {
  }

  /** `Object.values(stats).some(val => val > 0)`. */
  predicate AnyPositive(s: Scores)
  {
    s.analytical > 0 || s.creative > 0 || s.social > 0 || s.practical > 0
  }

  /** Some trait has a positive count exactly when the counters are not all zero. */
  lemma {:induction false} AnyPositiveIffNonZero(s: Scores)
    requires forall t :: Score(s, t) >= 0
    ensures AnyPositive(s) <==> exists t :: Score(s, t) > 0
    ensures !AnyPositive(s) <==> s == ZERO
  {
    if AnyPositive(s) {
      if s.analytical > 0 { assert Score(s, Analytical) > 0; }
      else if s.creative > 0 { assert Score(s, Creative) > 0; }
      else if s.social > 0 { assert Score(s, Social) > 0; }
      else { assert Score(s, Practical) > 0; }
    }
    assert Score(s, Analytical) >= 0 && Score(s, Creative) >= 0 && Score(s, Social) >= 0 && Score(s, Practical) >= 0;
  }

  /** The module's load-time `ensureTablesExist()`, whose failure is only logged. */
  method OnLoad(db: PersonaDb, fail: bool)
    requires db.Valid()
    modifies db
    ensures db.Valid()
    ensures !fail ==> db.personasTable
    ensures db.personas == old(db.personas) && db.quizResults == old(db.quizResults)
  {
    var _ := db.EnsureTablesExist(fail);
  }

  /**
   * `storePersona`: save to the cache under the fresh id, or make a
   * `local-` id when the cache throws; then insert into the database under
   * that id. A database failure still succeeds, with a warning. The
   * `if (id)` guard before the rethrow always holds (both ids are
   * non-empty), so `success: false` is never answered. Three clocks are
   * read: `now` by the cache save, `later` for the fallback id and `dbNow`
   * by the database's column default.
   */
  method StorePersona(cache: PersonaCache, db: PersonaDb, persona: Persona, dominantTrait: string,
                      freshId: string, now: int, later: nat, suffix: string, dbNow: int,
                      failAt: Option<SaveStep>, ensureFail: bool, queryFail: bool)
    returns (r: StoreReply)
    requires cache.Valid() && db.Valid()
    requires |freshId| > 0
    modifies cache, db
    ensures cache.Valid() && db.Valid()
    ensures r.id == if SaveThrows(failAt, |ZAdd(old(cache.recent), freshId, now)|) then FallbackId(later, suffix) else freshId
    ensures cache.personas == if Completed(AtHSet, failAt) then old(cache.personas)[freshId := Saved(persona, freshId, dominantTrait, now)]
                              else old(cache.personas)
    ensures cache.stats == if Completed(AtHIncrBy, failAt) then Incr(old(cache.stats), dominantTrait) else old(cache.stats)
    ensures cache.recent == RecentAfter(old(cache.recent), freshId, now, failAt)
    ensures var inDb := !ensureFail && !queryFail && Insertable(old(db.personas), Some(r.id));
      && (inDb ==> r.warning.None? && db.personas == old(db.personas) + [NewRow(old(db.personaSerial), persona.(id := Some(r.id)), dominantTrait, dbNow)])
      && (!inDb ==> r.warning == Some(CACHE_ONLY_WARNING) && db.personas == old(db.personas))
  {
    var id := CacheSave(cache, persona, dominantTrait, freshId, now, later, suffix, failAt);
    assert db.Valid() && db.personas == old(db.personas) && db.personaSerial == old(db.personaSerial);
    ghost var personas, stats, recent := cache.personas, cache.stats, cache.recent;
    var warning := StoreRow(db, persona, id, dominantTrait, dbNow, ensureFail, queryFail);
    assert cache.personas == personas && cache.stats == stats && cache.recent == recent && cache.Valid();
    r := Stored(id, warning);
  }

  /** The cache half of `storePersona`: the fresh id when the save answers it, else a `local-` id. */
  method CacheSave(cache: PersonaCache, persona: Persona, dominantTrait: string,
                   freshId: string, now: int, later: nat, suffix: string, failAt: Option<SaveStep>)
    returns (id: string)
    requires cache.Valid()
    requires |freshId| > 0
    modifies cache
    ensures cache.Valid()
    ensures id == if SaveThrows(failAt, |ZAdd(old(cache.recent), freshId, now)|) then FallbackId(later, suffix) else freshId
    ensures id != ""
    ensures cache.personas == if Completed(AtHSet, failAt) then old(cache.personas)[freshId := Saved(persona, freshId, dominantTrait, now)]
                              else old(cache.personas)
    ensures cache.stats == if Completed(AtHIncrBy, failAt) then Incr(old(cache.stats), dominantTrait) else old(cache.stats)
    ensures cache.recent == RecentAfter(old(cache.recent), freshId, now, failAt)
  {
    var saved := cache.SavePersona(persona, dominantTrait, freshId, now, failAt);
    FallbackIdPrefix(later, suffix);
    id := if saved.Some? then saved.value else FallbackId(later, suffix);
  }

  /** The database half of `storePersona`: the row under `id`, or the cache-only warning. */
  method StoreRow(db: PersonaDb, persona: Persona, id: string, dominantTrait: string, dbNow: int,
                  ensureFail: bool, queryFail: bool)
    returns (warning: Option<string>)
    requires db.Valid()
    modifies db
    ensures db.Valid()
    ensures var inDb := !ensureFail && !queryFail && Insertable(old(db.personas), Some(id));
      && (inDb ==> warning.None? && db.personas == old(db.personas) + [NewRow(old(db.personaSerial), persona.(id := Some(id)), dominantTrait, dbNow)])
      && (!inDb ==> warning == Some(CACHE_ONLY_WARNING) && db.personas == old(db.personas))
  {
    var rowId := db.SavePersonaToDb(persona.(id := Some(id)), dominantTrait, None, dbNow, ensureFail, queryFail);
    warning := if rowId.None? then Some(CACHE_ONLY_WARNING) else None;
  }

  /**
   * A cache save that throws after its `hset` leaves a cached record under
   * the fresh id while the database gets the persona under a `local-` id:
   * the two stores then disagree on the persona's id.
   */
  lemma {:induction false} LateCacheFailureSplitsIds(freshId: string, later: nat, suffix: string, failAt: Option<SaveStep>, count: nat)
    requires failAt.Some? && failAt.value != AtHSet && failAt.value != AtZRemRangeByRank
    requires |freshId| <= |FALLBACK_PREFIX| || freshId[..|FALLBACK_PREFIX|] != FALLBACK_PREFIX
    ensures Completed(AtHSet, failAt) && SaveThrows(failAt, count)
    ensures FallbackId(later, suffix) != freshId
  {
    FallbackIdPrefix(later, suffix);
  }

  /** `updatePersonaImageUrl`: the database copy only; a cached copy keeps its old url. */
  method UpdatePersonaImageUrl(db: PersonaDb, externalId: string, imageUrl: string, ensureFail: bool, queryFail: bool)
    returns (r: UpdateReply)
    requires db.Valid()
    modifies db
    ensures db.Valid()
    ensures r.Updated? <==> !ensureFail && !queryFail
    ensures db.personas == if r.Updated? then SetImage(old(db.personas), externalId, imageUrl) else old(db.personas)
  {
    var ok := db.UpdatePersonaImage(externalId, imageUrl, ensureFail, queryFail);
    if !ok {
      return UpdateFailed;
    }
    return Updated;
  }

  /** What the cache step of `fetchRecentPersonas` produces: its records, or `[]` when it threw. */
  function CachedRecent(window: seq<string>, personas: map<string, Persona>, cacheFail: bool): seq<Persona>
  {
    if cacheFail then [] else Found(window, personas)
  }

  /**
   * `fetchRecentPersonas(limit)`: fails only when the first
   * `ensureTablesExist` throws; a non-empty cache answer wins; otherwise
   * the newest database rows, and an empty list with a warning when the
   * database read throws.
   */
  method FetchRecentPersonas(cache: PersonaCache, db: PersonaDb, limit: nat, window: seq<string>,
                             ensureFail: bool, cacheFail: bool, dbEnsureFail: bool, queryFail: bool)
    returns (r: RecentReply)
    requires cache.Valid() && db.Valid()
    requires forall id :: id in window ==> id in Ids(cache.recent)
    modifies db
    ensures db.Valid() && db.personas == old(db.personas)
    ensures ensureFail <==> r.RecentFailed?
    ensures !ensureFail ==>
      var cached := CachedRecent(window, cache.personas, cacheFail);
      r == if |cached| > 0 then Recent(cached, None)
           else if dbEnsureFail || queryFail then Recent([], Some(DB_PERSONAS_WARNING))
           else Recent(FromRows(RecentRows(db.personas, limit)), None)
  {
    var ok := db.EnsureTablesExist(ensureFail);
    if !ok {
      return RecentFailed;
    }
    var redisPersonas: seq<Persona> := [];
    var got := cache.GetRecentPersonas(window, cacheFail);
    if got.Some? {
      redisPersonas := got.value;
    }
    if |redisPersonas| > 0 {
      return Recent(redisPersonas, None);
    }
    var rows := db.GetRecentPersonasFromDb(limit, dbEnsureFail, queryFail);
    if rows.Threw? {
      return Recent([], Some(DB_PERSONAS_WARNING));
    }
    return Recent(FromRows(rows.value), None);
  }

  /** What the cache step of `fetchPersonaStats` produces: its counters, or zeros when it threw. */
  function CachedStats(stats: map<string, nat>, cacheFail: bool): (s: Scores)
    ensures forall t :: Score(s, t) >= 0
  {
    if cacheFail then ZERO else Report(stats)
  }

  /**
   * `fetchPersonaStats`: fails only when the first `ensureTablesExist`
   * throws; cache counters win when one is positive; otherwise the
   * database counts. `getPersonaStatsFromDb` answers zeros itself when its
   * query fails, so the warning appears only when its own table check throws.
   */
  method FetchPersonaStats(cache: PersonaCache, db: PersonaDb,
                           ensureFail: bool, cacheFail: bool, dbEnsureFail: bool, queryFail: bool)
    returns (r: StatsReply)
    requires db.Valid()
    modifies db
    ensures db.Valid() && db.personas == old(db.personas)
    ensures ensureFail <==> r.StatsFailed?
    ensures !ensureFail ==>
      var cached := CachedStats(cache.stats, cacheFail);
      r == if AnyPositive(cached) then Stats(cached, None)
           else if dbEnsureFail then Stats(ZERO, Some(DB_STATS_WARNING))
           else if queryFail then Stats(ZERO, None)
           else Stats(DbStats(db.personas), None)
  {
    var ok := db.EnsureTablesExist(ensureFail);
    if !ok {
      return StatsFailed;
    }
    var redisStats := ZERO;
    if !cacheFail {
      redisStats := cache.PersonaStats();
    }
    if AnyPositive(redisStats) {
      return Stats(redisStats, None);
    }
    var dbStats := db.GetPersonaStatsFromDb(dbEnsureFail, queryFail);
    if dbStats.Threw? {
      return Stats(ZERO, Some(DB_STATS_WARNING));
    }
    return Stats(dbStats.value, None);
  }

  /**
   * The answer of `fetchPersonaStats` never mixes sources: when the cache
   * answers, every counter is the cache's; when it falls back, the cache
   * counters were all zero.
   */
  lemma {:induction false} StatsFallbackOnlyWhenCacheEmpty(stats: map<string, nat>, cacheFail: bool)
    ensures !AnyPositive(CachedStats(stats, cacheFail)) <==> cacheFail || forall t :: Count(stats, Name(t)) == 0
  {
    var s := CachedStats(stats, cacheFail);
    AnyPositiveIffNonZero(s);
    if !cacheFail && !AnyPositive(s) {
      forall t ensures Count(stats, Name(t)) == 0 {
        assert Score(s, t) == Count(stats, Name(t));
      }
    }
  }
}
