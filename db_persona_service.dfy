/**
 * `lib/db-persona-service.ts`: the relational store of personas. The two
 * tables are fields of a `PersonaDb` object, the `SERIAL` columns are
 * counters, each statement is a method, and each query is a function giving
 * the rows the SQL selects. Every exported operation first runs
 * `ensureTablesExist`; `ensureFail` stands for that check throwing and
 * `queryFail` for the statement itself throwing. A statement that throws
 * changes no rows.
 */
module DbPersonaService {
  import opened Options
  import opened Traits
  import opened Ordering

  /** An `ai_personas` row; SQL `NULL` is `None`. */
  datatype PersonaRow = PersonaRow(
    id: int,
    externalId: Option<string>,
    agentName: string,
    tagline: string,
    personalityTraits: seq<string>,
    specialization: string,
    communicationStyle: string,
    appearance: string,
    backstory: string,
    specialAbilities: seq<string>,
    imageUrl: Option<string>,
    dominantTrait: string,
    userId: Option<int>,
    createdAt: int)

  /** A `quiz_results` row. */
  datatype QuizRow = QuizRow(id: int, userId: Option<int>, scores: Scores, personaId: int)

  /** The outcome of a query that may throw. */
  datatype Fetch<T> = Threw | Got(value: T)

  const DEFAULT_RECENT_LIMIT := 20

  /** `external_id VARCHAR(100) UNIQUE`: no two non-`NULL` external ids are equal. */
  predicate UniqueExternalIds(rows: seq<PersonaRow>)
  {
    forall i, j :: 0 <= i < j < |rows| && rows[i].externalId.Some? ==> rows[i].externalId != rows[j].externalId
  }

  /** Some row carries the external id `x`. */
  predicate HasExternalId(rows: seq<PersonaRow>, x: string)
  {
    exists i :: 0 <= i < |rows| && rows[i].externalId == Some(x)
  }

  /** The unique index accepts a row: a `NULL` external id always, another only when unused. */
  predicate Insertable(rows: seq<PersonaRow>, externalId: Option<string>)
  {
    externalId.None? || !HasExternalId(rows, externalId.value)
  }

  /** Appending an insertable row keeps the external ids unique. */
  lemma {:induction false} InsertKeepsUnique(rows: seq<PersonaRow>, row: PersonaRow)
    requires UniqueExternalIds(rows) && Insertable(rows, row.externalId)
    ensures UniqueExternalIds(rows + [row])
  {
    var r := rows + [row];
    forall i, j | 0 <= i < j < |r| && r[i].externalId.Some?
      ensures r[i].externalId != r[j].externalId
    {
      if j == |rows| {
        assert r[i] == rows[i];
      }
    }
  }

  /** The row `savePersonaToDb` inserts: `image_url` is `persona.imageUrl || null` and `user_id` is always `NULL`. */
  function NewRow(serial: int, persona: Persona, dominantTrait: string, now: int): (r: PersonaRow)
    ensures r.id == serial && r.externalId == persona.id && r.dominantTrait == dominantTrait && r.createdAt == now
    ensures r.userId.None?
    ensures r.imageUrl == if Truthy(persona.imageUrl) then persona.imageUrl else None
    ensures r.agentName == persona.agentName && r.tagline == persona.tagline
    ensures r.personalityTraits == persona.personalityTraits && r.specialization == persona.specialization
    ensures r.communicationStyle == persona.communicationStyle && r.appearance == persona.appearance
    ensures r.backstory == persona.backstory && r.specialAbilities == persona.specialAbilities
  {
    PersonaRow(serial, persona.id, persona.agentName, persona.tagline, persona.personalityTraits, persona.specialization,
      persona.communicationStyle, persona.appearance, persona.backstory, persona.specialAbilities,
      if Truthy(persona.imageUrl) then persona.imageUrl else None, dominantTrait, None, now)
  }

  /** `UPDATE ai_personas SET image_url = url WHERE external_id = x`. */
  function SetImage(rows: seq<PersonaRow>, x: string, url: string): (r: seq<PersonaRow>)
    ensures |r| == |rows|
    ensures forall i :: 0 <= i < |rows| && rows[i].externalId == Some(x) ==> r[i] == rows[i].(imageUrl := Some(url))
    ensures forall i :: 0 <= i < |rows| && rows[i].externalId != Some(x) ==> r[i] == rows[i]
  {
    seq(|rows|, i requires 0 <= i < |rows| => if rows[i].externalId == Some(x) then rows[i].(imageUrl := Some(url)) else rows[i])
  }

  /** The update touches only `image_url`, so uniqueness and every other column survive it. */
  lemma {:induction false} SetImageOnlyImage(rows: seq<PersonaRow>, x: string, url: string)
    requires UniqueExternalIds(rows)
    ensures UniqueExternalIds(SetImage(rows, x, url))
    ensures forall i :: 0 <= i < |rows| ==> SetImage(rows, x, url)[i].(imageUrl := rows[i].imageUrl) == rows[i]
    ensures !HasExternalId(rows, x) ==> SetImage(rows, x, url) == rows
  {
    var r := SetImage(rows, x, url);
    assert forall i :: 0 <= i < |rows| ==> r[i].externalId == rows[i].externalId;
  }

  /** `SELECT * FROM ai_personas WHERE external_id = x`, first row (there is at most one). */
  function FindByExternalId(rows: seq<PersonaRow>, x: string): (r: Option<PersonaRow>)
    ensures r.None? <==> !HasExternalId(rows, x)
    ensures r.Some? ==> r.value in rows && r.value.externalId == Some(x)
  {
    if |rows| == 0 then None
    else if rows[0].externalId == Some(x) then Some(rows[0])
    else
      var r := FindByExternalId(rows[1..], x);
      assert HasExternalId(rows, x) ==> HasExternalId(rows[1..], x) by {
        if HasExternalId(rows, x) {
          var i :| 0 <= i < |rows| && rows[i].externalId == Some(x);
          assert rows[1..][i - 1] == rows[i];
        }
      }
      assert HasExternalId(rows[1..], x) ==> HasExternalId(rows, x) by {
        if HasExternalId(rows[1..], x) {
          var i :| 0 <= i < |rows| - 1 && rows[1..][i].externalId == Some(x);
          assert rows[i + 1] == rows[1..][i];
        }
      }
      r
  }

  /** A row just inserted under an unused external id is what the lookup finds. */
  lemma {:induction false} FindInserted(rows: seq<PersonaRow>, row: PersonaRow, x: string)
    requires row.externalId == Some(x) && !HasExternalId(rows, x)
    ensures FindByExternalId(rows + [row], x) == Some(row)
  {
    if |rows| == 0 {
      assert rows + [row] == [row];
    } else {
      assert rows[0].externalId != Some(x);
      assert (rows + [row])[1..] == rows[1..] + [row];
      FindInserted(rows[1..], row, x);
    }
  }

  function NewestFirst(r: PersonaRow): int { -r.createdAt }

  /** `SELECT * FROM ai_personas ORDER BY created_at DESC LIMIT limit`. */
  function RecentRows(rows: seq<PersonaRow>, limit: nat): (r: seq<PersonaRow>)
    ensures |r| == if |rows| < limit then |rows| else limit
    ensures forall i, j :: 0 <= i < j < |r| ==> r[i].createdAt >= r[j].createdAt
    ensures forall i :: 0 <= i < |r| ==> r[i] in rows
    ensures |rows| <= limit ==> multiset(r) == multiset(rows)
  {
    var sorted := SortBy(rows, NewestFirst);
    var r := Take(sorted, limit);
    TakeSorted(sorted, NewestFirst, limit);
    assert forall i, j :: 0 <= i < j < |r| ==> NewestFirst(r[i]) <= NewestFirst(r[j]);
    forall i | 0 <= i < |r| ensures r[i] in rows {
      assert r[i] == sorted[i];
      assert sorted[i] in multiset(rows);
    }
    r
  }

  /** `LIMIT` leaves out only rows created no later than every row it returns. */
  lemma RecentRowsKeepsNewest(rows: seq<PersonaRow>, limit: nat)
    ensures multiset(RecentRows(rows, limit)) <= multiset(rows)
    ensures var r := RecentRows(rows, limit);
      forall x :: x in multiset(rows) - multiset(r) ==>
        forall i :: 0 <= i < |r| ==> x.createdAt <= r[i].createdAt
  {
    var sorted := SortBy(rows, NewestFirst);
    TakeKeepsFirst(sorted, NewestFirst, limit);
  }

  /** `COUNT(*) FILTER (WHERE dominant_trait = name)`. */
  function CountTrait(rows: seq<PersonaRow>, name: string): (n: nat)
    ensures n <= |rows|
    ensures n == 0 <==> forall i :: 0 <= i < |rows| ==> rows[i].dominantTrait != name
  {
    if |rows| == 0 then 0
    else (if rows[0].dominantTrait == name then 1 else 0) + CountTrait(rows[1..], name)
  }

  lemma {:induction false} CountTraitAppend(rows: seq<PersonaRow>, row: PersonaRow, name: string)
    ensures CountTrait(rows + [row], name) == CountTrait(rows, name) + (if row.dominantTrait == name then 1 else 0)
  {
    if |rows| == 0 {
      assert rows + [row] == [row];
    } else {
      assert (rows + [row])[1..] == rows[1..] + [row];
      CountTraitAppend(rows[1..], row, name);
    }
  }

  /** The statistics query: one count per trait. */
  function DbStats(rows: seq<PersonaRow>): (r: Scores)
    ensures forall t :: Score(r, t) == CountTrait(rows, Name(t))
  {
    Scores(CountTrait(rows, "analytical"), CountTrait(rows, "creative"), CountTrait(rows, "social"), CountTrait(rows, "practical"))
  }

  /** Inserting a persona raises its trait's count by one and leaves the others. */
  lemma {:induction false} DbStatsAfterInsert(rows: seq<PersonaRow>, row: PersonaRow, t: Trait)
    requires row.dominantTrait == Name(t)
    ensures Score(DbStats(rows + [row]), t) == Score(DbStats(rows), t) + 1
    ensures forall u :: u != t ==> Score(DbStats(rows + [row]), u) == Score(DbStats(rows), u)
  {
    CountTraitAppend(rows, row, Name(t));
    forall u | u != t ensures Score(DbStats(rows + [row]), u) == Score(DbStats(rows), u) {
      NameInjective(t, u);
      CountTraitAppend(rows, row, Name(u));
    }
  }

  class PersonaDb {
    var personasTable: bool
    var quizTable: bool
    var personas: seq<PersonaRow>
    var quizResults: seq<QuizRow>
    /** The next value of `ai_personas.id`. */
    var personaSerial: int
    /** The next value of `quiz_results.id`. */
    var quizSerial: int

    /** A missing table holds no rows; external ids are unique; every row id was drawn from the sequence. */
    ghost predicate Valid()
      reads this
    {
      (!personasTable ==> personas == []) && (!quizTable ==> quizResults == [])
      && UniqueExternalIds(personas)
      && (forall i :: 0 <= i < |personas| ==> personas[i].id < personaSerial)
    }

    /** A database with neither table. */
    constructor ()
      ensures Valid()
      ensures !personasTable && !quizTable && personas == [] && quizResults == []
    {
      personasTable := false;
      quizTable := false;
      personas := [];
      quizResults := [];
      personaSerial := 1;
      quizSerial := 1;
    }

    /**
     * `ensureTablesExist`: when `ai_personas` is missing both tables are
     * created; when it exists nothing is created, so a missing
     * `quiz_results` stays missing.
     */
    method EnsureTablesExist(fail: bool) returns (ok: bool)
      requires Valid()
      modifies this
      ensures Valid()
      ensures ok == !fail
      ensures ok ==> personasTable
      ensures ok && !old(personasTable) ==> quizTable
      ensures !(ok && !old(personasTable)) ==> personasTable == old(personasTable) && quizTable == old(quizTable)
      ensures personas == old(personas) && quizResults == old(quizResults)
      ensures personaSerial == old(personaSerial) && quizSerial == old(quizSerial)
    {
      if fail {
        return false;
      }
      if !personasTable {
        personasTable := true;
        quizTable := true;
      }
      return true;
    }

    /**
     * `savePersonaToDb`: insert the persona's row and return its id. The
     * unique index refuses a used external id; that refused insert has
     * still drawn a value from the sequence. `now` is the database clock
     * that fills the `created_at DEFAULT CURRENT_TIMESTAMP` column.
     */
    method SavePersonaToDb(persona: Persona, dominantTrait: string, userId: Option<int>, now: int,
                           ensureFail: bool, queryFail: bool)
      returns (r: Option<int>)
      requires Valid()
      modifies this
      ensures Valid()
      ensures quizResults == old(quizResults)
      ensures r.Some? <==> !ensureFail && !queryFail && Insertable(old(personas), persona.id)
      ensures r.Some? ==>
        && r.value == old(personaSerial)
        && personas == old(personas) + [NewRow(old(personaSerial), persona, dominantTrait, now)]
        && personaSerial == old(personaSerial) + 1
      ensures r.None? ==> personas == old(personas)
    {
      var ok := EnsureTablesExist(ensureFail);
      if !ok {
        return None;
      }
      if queryFail {
        return None;
      }
      var rowId := personaSerial;
      personaSerial := personaSerial + 1;
      if !Insertable(personas, persona.id) {
        return None;
      }
      var row := NewRow(rowId, persona, dominantTrait, now);
      InsertKeepsUnique(personas, row);
      personas := personas + [row];
      return Some(rowId);
    }

    /** `updatePersonaImage`: only `image_url`, only on the rows with that external id. */
    method UpdatePersonaImage(externalId: string, imageUrl: string, ensureFail: bool, queryFail: bool)
      returns (ok: bool)
      requires Valid()
      modifies this
      ensures Valid()
      ensures ok == (!ensureFail && !queryFail)
      ensures personas == if ok then SetImage(old(personas), externalId, imageUrl) else old(personas)
      ensures quizResults == old(quizResults) && personaSerial == old(personaSerial)
    {
      ok := EnsureTablesExist(ensureFail);
      if !ok {
        return;
      }
      if queryFail {
        return false;
      }
      SetImageOnlyImage(personas, externalId, imageUrl);
      personas := SetImage(personas, externalId, imageUrl);
    }

    /** `getPersonaByExternalId`: the matching row, `null` when none matches. */
    method GetPersonaByExternalId(externalId: string, ensureFail: bool, queryFail: bool)
      returns (r: Fetch<Option<PersonaRow>>)
      requires Valid()
      modifies this
      ensures Valid()
      ensures personas == old(personas) && quizResults == old(quizResults)
      ensures r.Threw? <==> ensureFail || queryFail
      ensures r.Got? ==> r.value == FindByExternalId(personas, externalId)
    {
      var ok := EnsureTablesExist(ensureFail);
      if !ok || queryFail {
        return Threw;
      }
      return Got(FindByExternalId(personas, externalId));
    }

    /** `getRecentPersonasFromDb`: at most `limit` rows, newest first. */
    method GetRecentPersonasFromDb(limit: nat, ensureFail: bool, queryFail: bool)
      returns (r: Fetch<seq<PersonaRow>>)
      requires Valid()
      modifies this
      ensures Valid()
      ensures personas == old(personas) && quizResults == old(quizResults)
      ensures r.Threw? <==> ensureFail || queryFail
      ensures r.Got? ==> r.value == RecentRows(personas, limit)
    {
      var ok := EnsureTablesExist(ensureFail);
      if !ok || queryFail {
        return Threw;
      }
      return Got(RecentRows(personas, limit));
    }

    /**
     * `saveQuizResult`: the row's `user_id` is `NULL` whatever `userId`
     * says. The insert fails when `quiz_results` is missing, which
     * `ensureTablesExist` repairs only together with `ai_personas`.
     */
    method SaveQuizResult(userId: Option<int>, scores: Scores, personaId: int, ensureFail: bool, queryFail: bool)
      returns (ok: bool)
      requires Valid()
      modifies this
      ensures Valid()
      ensures ok <==> !ensureFail && !queryFail && (old(quizTable) || !old(personasTable))
      ensures ok ==>
        && quizResults == old(quizResults) + [QuizRow(old(quizSerial), None, scores, personaId)]
        && quizSerial == old(quizSerial) + 1
      ensures !ok ==> quizResults == old(quizResults)
      ensures personas == old(personas)
    {
      ok := EnsureTablesExist(ensureFail);
      if !ok {
        return;
      }
      if queryFail || !quizTable {
        ok := false;
        return;
      }
      quizResults := quizResults + [QuizRow(quizSerial, None, scores, personaId)];
      quizSerial := quizSerial + 1;
    }

    /** `getPersonaStatsFromDb`: the per-trait counts; all zeros when the query throws. */
    method GetPersonaStatsFromDb(ensureFail: bool, queryFail: bool) returns (r: Fetch<Scores>)
      requires Valid()
      modifies this
      ensures Valid()
      ensures personas == old(personas) && quizResults == old(quizResults)
      ensures r.Threw? <==> ensureFail
      ensures r.Got? && queryFail ==> r.value == ZERO
      ensures r.Got? && !queryFail ==> r.value == DbStats(personas)
    {
      var ok := EnsureTablesExist(ensureFail);
      if !ok {
        return Threw;
      }
      if queryFail {
        return Got(ZERO);
      }
      return Got(DbStats(personas));
    }
  }
}
