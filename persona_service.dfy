/**
 * `lib/persona-service.ts`: the key-value cache of generated personas. The
 * store is a `PersonaCache` object with the three keys the code uses: the
 * persona hash (id to record), the statistics hash (trait name to counter)
 * and the recent-persona sorted set (id scored by its timestamp), kept as a
 * sequence in ascending score order. `nanoid(10)` and `Date.now()` are
 * parameters; `failAt` names the command at which the cache throws.
 */
module PersonaService {
  import opened Options
  import opened Traits
  import opened Ordering

  const MAX_RECENT_PERSONAS := 20

  /** A sorted-set entry: the member and its score. */
  type Entry = (string, int)

  function Stamp(e: Entry): int { e.1 }

  /** Ascending scores: the order of a sorted set. */
  predicate Ascending(s: seq<Entry>)
  {
    forall i, j :: 0 <= i < j < |s| ==> s[i].1 <= s[j].1
  }

  /** Ascending scores is the `Ordering` order by `Stamp`. */
  lemma {:induction false} AscendingSorted(s: seq<Entry>)
    ensures Ascending(s) <==> SortedBy(s, Stamp)
  {
  }

  /** The members of a sorted set in ascending score order. */
  function Ids(s: seq<Entry>): (r: seq<string>)
    ensures |r| == |s| && forall i :: 0 <= i < |s| ==> r[i] == s[i].0
  {
    seq(|s|, i requires 0 <= i < |s| => s[i].0)
  }

  /** The set without `member`, in the same order. */
  function Drop(s: seq<Entry>, member: string): (r: seq<Entry>)
    ensures |r| <= |s|
    ensures forall e :: e in r <==> e in s && e.0 != member
    ensures Ascending(s) ==> Ascending(r)
  {
    if |s| == 0 then []
    else
      var t := Drop(s[1..], member);
      if s[0].0 == member then t
      else
        assert forall e :: e in t ==> e in s[1..];
        KeepFirst(s, t);
        [s[0]] + t
  }

  /** Keeping the first entry in front of a subset of the rest keeps ascending scores. */
  lemma {:induction false} KeepFirst(s: seq<Entry>, t: seq<Entry>)
    requires |s| > 0 && forall e :: e in t ==> e in s[1..]
    requires Ascending(s[1..]) ==> Ascending(t)
    ensures Ascending(s) ==> Ascending([s[0]] + t)
  {
    if Ascending(s) {
      var r := [s[0]] + t;
      forall i, j | 0 <= i < j < |r| ensures r[i].1 <= r[j].1 {
        assert r[j] == t[j - 1] && t[j - 1] in s[1..];
        var k :| 0 <= k < |s[1..]| && s[1..][k] == t[j - 1];
        assert r[j] == s[k + 1];
        if i > 0 {
          assert r[i] == t[i - 1];
        }
      }
    }
  }

  /** `ZADD`: the member is (re)inserted with the new score, keeping the score order. */
  function ZAdd(s: seq<Entry>, member: string, score: int): (r: seq<Entry>)
    requires Ascending(s)
    ensures Ascending(r)
    ensures |r| <= |s| + 1
  {
    var d := Drop(s, member);
    AscendingSorted(d);
    var r := Insert((member, score), d, Stamp);
    AscendingSorted(r);
    r
  }

  /** After `ZADD` the member is in the set with the new score and no other; every other entry is kept. */
  lemma {:induction false} ZAddMembers(s: seq<Entry>, member: string, score: int)
    requires Ascending(s)
    ensures forall e :: e in ZAdd(s, member, score) <==> e == (member, score) || (e in s && e.0 != member)
  {
    var d := Drop(s, member);
    AscendingSorted(d);
    var r := Insert((member, score), d, Stamp);
    assert r == ZAdd(s, member, score);
    assert forall e :: e in r ==> e in multiset(d) + multiset{(member, score)};
    assert forall e :: e in d ==> e in multiset(r);
  }

  /** `ZREMRANGEBYRANK 0 (count - 21)` when more than 20 members: only the 20 highest ranks stay. */
  function Trim(s: seq<Entry>): (r: seq<Entry>)
    ensures |r| == if |s| > MAX_RECENT_PERSONAS then MAX_RECENT_PERSONAS else |s|
    ensures r == s[|s| - |r|..]
  {
    if |s| > MAX_RECENT_PERSONAS then s[|s| - MAX_RECENT_PERSONAS..] else s
  }

  /** Trimming a score-ordered set keeps it ordered and removes only entries no newer than every kept one. */
  lemma {:induction false} TrimKeepsNewest(s: seq<Entry>)
    requires Ascending(s)
    ensures Ascending(Trim(s))
    ensures forall i, j :: 0 <= i < |s| - |Trim(s)| && 0 <= j < |Trim(s)| ==> Stamp(s[i]) <= Stamp(Trim(s)[j])
  {
    var r := Trim(s);
    forall i, j | 0 <= i < |s| - |r| && 0 <= j < |r|
      ensures Stamp(s[i]) <= Stamp(r[j])
    {
      assert r[j] == s[|s| - |r| + j];
    }
  }

  /** Adding an entry newer than every member puts it last. */
  lemma {:induction false} InsertNewest(x: Entry, s: seq<Entry>)
    requires SortedBy(s, Stamp)
    requires forall e :: e in s ==> Stamp(e) < Stamp(x)
    ensures Insert(x, s, Stamp) == s + [x]
  {
    if |s| > 0 {
      assert s[0] in s;
      assert SortedBy(s[1..], Stamp);
      InsertNewest(x, s[1..]);
      assert s == [s[0]] + s[1..];
    }
  }

  /**
   * A save whose timestamp is later than every recorded one ends the recent
   * set, so it survives the trim.
   */
  lemma {:induction false} LatestSaveKept(s: seq<Entry>, id: string, timestamp: int)
    requires Ascending(s)
    requires forall e :: e in s ==> Stamp(e) < timestamp
    ensures var r := Trim(ZAdd(s, id, timestamp));
      |r| > 0 && r[|r| - 1] == (id, timestamp)
  {
    var d := Drop(s, id);
    AscendingSorted(d);
    InsertNewest((id, timestamp), d);
  }

  /**
   * Every save mints its own record: saving the same persona twice under
   * two ids stores two records and counts its trait twice.
   */
  lemma {:induction false} SaveTwice(personas: map<string, Persona>, stats: map<string, nat>, persona: Persona, t: string,
                  id1: string, id2: string, t1: int, t2: int)
    requires id1 != id2
    ensures var after := personas[id1 := Saved(persona, id1, t, t1)][id2 := Saved(persona, id2, t, t2)];
      id1 in after && id2 in after && after[id1] != after[id2]
      && after[id1].agentName == after[id2].agentName == persona.agentName
    ensures Count(Incr(Incr(stats, t), t), t) == Count(stats, t) + 2
  {
    assert Saved(persona, id1, t, t1).id != Saved(persona, id2, t, t2).id;
  }

  /** `getPersonaById` for every id in order, skipping ids without a record. */
  function Found(ids: seq<string>, personas: map<string, Persona>): (r: seq<Persona>)
    ensures |r| <= |ids|
    ensures forall p :: p in r ==> exists id :: id in ids && id in personas && personas[id] == p
    ensures (forall id :: id in ids ==> id in personas) ==> |r| == |ids|
  {
    if |ids| == 0 then []
    else
      var rest := Found(ids[1..], personas);
      assert forall id :: id in ids[1..] ==> id in ids;
      if ids[0] in personas then [personas[ids[0]]] + rest else rest
  }

  lemma {:induction false} FoundAppend(ids: seq<string>, id: string, personas: map<string, Persona>)
    ensures Found(ids + [id], personas) == Found(ids, personas) + (if id in personas then [personas[id]] else [])
  {
    if |ids| > 0 {
      assert (ids + [id])[1..] == ids[1..] + [id];
      FoundAppend(ids[1..], id, personas);
    } else {
      assert ids + [id] == [id];
    }
  }

  /** The record `savePersona` stores: the input with the new id, the argument's trait and the timestamp. */
  function Saved(persona: Persona, id: string, dominantTrait: string, timestamp: int): (r: Persona)
    ensures r.id == Some(id) && r.dominantTrait == Some(dominantTrait) && r.createdAt == Some(timestamp)
    ensures r.agentName == persona.agentName && r.tagline == persona.tagline
    ensures r.personalityTraits == persona.personalityTraits && r.specialization == persona.specialization
    ensures r.communicationStyle == persona.communicationStyle && r.appearance == persona.appearance
    ensures r.backstory == persona.backstory && r.specialAbilities == persona.specialAbilities
    ensures r.imageUrl == persona.imageUrl
  {
    persona.(id := Some(id), dominantTrait := Some(dominantTrait), createdAt := Some(timestamp))
  }

  /** A counter of the statistics hash; a missing field reads as 0. */
  function Count(stats: map<string, nat>, key: string): nat
  {
    if key in stats then stats[key] else 0
  }

  /** `HINCRBY key field 1`. */
  function Incr(stats: map<string, nat>, key: string): (r: map<string, nat>)
    ensures key in r && r[key] == Count(stats, key) + 1
    ensures forall k :: k != key ==> Count(r, k) == Count(stats, k)
    ensures r.Keys == stats.Keys + {key}
  {
    stats[key := Count(stats, key) + 1]
  }

  /** The four reported counters of `getPersonaStats`. */
  function Report(stats: map<string, nat>): (r: Scores)
    ensures forall t :: Score(r, t) == Count(stats, Name(t))
  {
    Scores(Count(stats, "analytical"), Count(stats, "creative"), Count(stats, "social"), Count(stats, "practical"))
  }

  /** A counter under any other key is stored but changes nothing that is reported. */
  lemma {:induction false} UnreportedKeys(stats: map<string, nat>, key: string)
    requires forall t :: Name(t) != key
    ensures Report(Incr(stats, key)) == Report(stats)
  {
    var r := Incr(stats, key);
    assert Name(Analytical) != key && Name(Creative) != key && Name(Social) != key && Name(Practical) != key;
    assert Count(r, "analytical") == Count(stats, "analytical");
    assert Count(r, "creative") == Count(stats, "creative");
    assert Count(r, "social") == Count(stats, "social");
    assert Count(r, "practical") == Count(stats, "practical");
  }

  /** Counting a trait's name raises exactly that trait's reported score, by one. */
  lemma {:induction false} IncrTraitReport(stats: map<string, nat>, t: Trait)
    ensures Score(Report(Incr(stats, Name(t))), t) == Score(Report(stats), t) + 1
    ensures forall u :: u != t ==> Score(Report(Incr(stats, Name(t))), u) == Score(Report(stats), u)
  {
    forall u | u != t
      ensures Score(Report(Incr(stats, Name(t))), u) == Score(Report(stats), u)
    {
      NameInjective(t, u);
    }
  }

  /** The trimmed set after adding a stored id is in score order and holds only stored ids. */
  lemma {:induction false} RecentStored(before: seq<Entry>, personas: map<string, Persona>, id: string, timestamp: int)
    requires Ascending(before)
    requires id in personas && forall e :: e in before ==> e.0 in personas
    ensures Ascending(Trim(ZAdd(before, id, timestamp)))
    ensures forall e :: e in Trim(ZAdd(before, id, timestamp)) ==> e.0 in personas
  {
    var added := ZAdd(before, id, timestamp);
    ZAddMembers(before, id, timestamp);
    TrimKeepsNewest(added);
    SuffixMembers(added, Trim(added));
  }

  /** A suffix holds nothing its sequence does not. */
  lemma {:induction false} SuffixMembers(s: seq<Entry>, t: seq<Entry>)
    requires |t| <= |s| && t == s[|s| - |t|..]
    ensures forall e :: e in t ==> e in s
  {
    forall e | e in t ensures e in s {
      var k :| 0 <= k < |t| && t[k] == e;
      assert e == s[|s| - |t| + k];
    }
  }

  /** The cache command of `savePersona` that throws, in the order they are sent. */
  datatype SaveStep = AtHSet | AtHIncrBy | AtZAdd | AtZCard | AtZRemRangeByRank

  function StepRank(step: SaveStep): nat
  {
    match step
    case AtHSet => 0
    case AtHIncrBy => 1
    case AtZAdd => 2
    case AtZCard => 3
    case AtZRemRangeByRank => 4
  }

  /** Whether command `step` took effect when the save throws at `failAt` (`None`: nowhere). */
  predicate Completed(step: SaveStep, failAt: Option<SaveStep>)
  {
    failAt.None? || StepRank(step) < StepRank(failAt.value)
  }

  /**
   * Whether the save throws: at any command but the trim, and at the trim
   * only when it is sent, that is when the set has grown past 20 members.
   */
  predicate SaveThrows(failAt: Option<SaveStep>, count: nat)
  {
    failAt.Some? && (failAt.value != AtZRemRangeByRank || count > MAX_RECENT_PERSONAS)
  }

  /**
   * A save that does not throw leaves the trimmed set: either the trim ran,
   * or it was not sent because the set had at most 20 members.
   */
  lemma {:induction false} UnthrownSaveIsTrimmed(failAt: Option<SaveStep>, s: seq<Entry>)
    requires !SaveThrows(failAt, |s|)
    ensures (if Completed(AtZRemRangeByRank, failAt) then Trim(s) else s) == Trim(s)
    ensures |Trim(s)| <= MAX_RECENT_PERSONAS
  {
    if !Completed(AtZRemRangeByRank, failAt) {
      assert |s| <= MAX_RECENT_PERSONAS;
    }
  }

  /**
   * The recent set after a save of `id` at `timestamp` that throws at
   * `failAt`: as it was when the `zadd` did not run, with the id added
   * (and its score renewed) when it did, and trimmed to the newest 20 when
   * the `zremrangebyrank` ran as well.
   */
  function RecentAfter(recent: seq<Entry>, id: string, timestamp: int, failAt: Option<SaveStep>): seq<Entry>
    requires Ascending(recent)
  {
    if !Completed(AtZAdd, failAt) then recent
    else if Completed(AtZRemRangeByRank, failAt) then Trim(ZAdd(recent, id, timestamp))
    else ZAdd(recent, id, timestamp)
  }

  class PersonaCache {
    /** `play-buni:personas`. */
    var personas: map<string, Persona>
    /** `play-buni:persona-stats`. */
    var stats: map<string, nat>
    /** `play-buni:recent-personas`, lowest score first. */
    var recent: seq<Entry>

    /**
     * The recent set is in score order and every member has a record. It
     * can hold more than 20 members after a save that threw before its trim.
     */
    ghost predicate Valid()
      reads this
    {
      Ascending(recent) && forall e :: e in recent ==> e.0 in personas
    }

    constructor ()
      ensures Valid() && personas == map[] && stats == map[] && recent == []
    {
      personas := map[];
      stats := map[];
      recent := [];
    }

    /**
     * `savePersona`: store the record under the fresh id, count its trait,
     * add the id to the recent set and trim that set to 20 members. The
     * commands are separate, so one that throws (`failAt`) leaves the
     * earlier ones in effect.
     */
    method SavePersona(persona: Persona, dominantTrait: string, id: string, timestamp: int, failAt: Option<SaveStep>)
      returns (r: Option<string>)
      requires Valid()
      modifies this
      ensures Valid()
      ensures personas == if Completed(AtHSet, failAt) then old(personas)[id := Saved(persona, id, dominantTrait, timestamp)] else old(personas)
      ensures stats == if Completed(AtHIncrBy, failAt) then Incr(old(stats), dominantTrait) else old(stats)
      ensures recent == RecentAfter(old(recent), id, timestamp, failAt)
      ensures r == if SaveThrows(failAt, |ZAdd(old(recent), id, timestamp)|) then None else Some(id)
      ensures r.Some? ==> recent == Trim(ZAdd(old(recent), id, timestamp)) && |recent| <= MAX_RECENT_PERSONAS
    {
      if failAt == Some(AtHSet) {
        assert !Completed(AtHSet, failAt) && !Completed(AtHIncrBy, failAt) && !Completed(AtZAdd, failAt);
        return None;
      }
      StoreRecord(id, Saved(persona, id, dominantTrait, timestamp));
      if failAt == Some(AtHIncrBy) {
        assert Completed(AtHSet, failAt) && !Completed(AtHIncrBy, failAt) && !Completed(AtZAdd, failAt);
        return None;
      }
      CountTrait(dominantTrait);
      assert Completed(AtHSet, failAt) && Completed(AtHIncrBy, failAt);
      var thrown := RecordRecent(id, timestamp, failAt);
      if thrown {
        return None;
      }
      UnthrownSaveIsTrimmed(failAt, ZAdd(old(recent), id, timestamp));
      return Some(id);
    }

    /**
     * The `zadd`, `zcard` and `zremrangebyrank` of `savePersona`, for an id
     * that has a record and a `failAt` no earlier than the `zadd`.
     */
    method RecordRecent(id: string, timestamp: int, failAt: Option<SaveStep>) returns (thrown: bool)
      requires Valid() && id in personas
      requires failAt.None? || StepRank(failAt.value) >= StepRank(AtZAdd)
      modifies this
      ensures Valid()
      ensures personas == old(personas) && stats == old(stats)
      ensures recent == RecentAfter(old(recent), id, timestamp, failAt)
      ensures thrown == SaveThrows(failAt, |ZAdd(old(recent), id, timestamp)|)
    {
      ghost var added := ZAdd(recent, id, timestamp);
      if failAt == Some(AtZAdd) {
        assert !Completed(AtZAdd, failAt) && SaveThrows(failAt, |added|);
        return true;
      }
      AddRecent(id, timestamp);
      assert recent == added;
      assert Completed(AtZAdd, failAt) && (Completed(AtZRemRangeByRank, failAt) <==> failAt.None?);
      thrown := CountAndTrim(failAt);
    }

    /** The `zcard` and, when its count is over 20, the `zremrangebyrank`. */
    method CountAndTrim(failAt: Option<SaveStep>) returns (thrown: bool)
      requires Valid()
      requires failAt.None? || failAt == Some(AtZCard) || failAt == Some(AtZRemRangeByRank)
      modifies this
      ensures Valid()
      ensures personas == old(personas) && stats == old(stats)
      ensures thrown == (failAt == Some(AtZCard) || (failAt == Some(AtZRemRangeByRank) && |old(recent)| > MAX_RECENT_PERSONAS))
      ensures recent == if failAt.None? then Trim(old(recent)) else old(recent)
    {
      if failAt == Some(AtZCard) {
        return true;
      }
      var count := |recent|;
      if count <= MAX_RECENT_PERSONAS {
        assert recent == Trim(recent);
        return false;
      }
      if failAt == Some(AtZRemRangeByRank) {
        return true;
      }
      TrimRecent(count);
      return false;
    }

    /** The `hset` of `savePersona`: only the record under `id` changes. */
    method StoreRecord(id: string, record: Persona)
      requires Valid()
      modifies this
      ensures Valid()
      ensures personas == old(personas)[id := record]
      ensures stats == old(stats) && recent == old(recent)
    {
      personas := personas[id := record];
    }

    /** The `zadd` of `savePersona`, for an id that has a record. */
    method AddRecent(id: string, timestamp: int)
      requires Valid() && id in personas
      modifies this
      ensures Valid()
      ensures recent == ZAdd(old(recent), id, timestamp)
      ensures personas == old(personas) && stats == old(stats)
    {
      ZAddMembers(recent, id, timestamp);
      recent := ZAdd(recent, id, timestamp);
    }

    /** The `zremrangebyrank 0 (count - 21)` of `savePersona`, sent when `count` is over 20. */
    method TrimRecent(count: nat)
      requires Valid() && count == |recent| > MAX_RECENT_PERSONAS
      modifies this
      ensures Valid()
      ensures recent == Trim(old(recent))
      ensures personas == old(personas) && stats == old(stats)
    {
      var kept := recent[count - MAX_RECENT_PERSONAS..];
      assert kept == Trim(recent);
      TrimKeepsNewest(recent);
      SuffixMembers(recent, kept);
      recent := kept;
    }

    /** The `hincrby` of `savePersona`: only the trait's counter changes. */
    method CountTrait(dominantTrait: string)
      modifies this
      ensures stats == Incr(old(stats), dominantTrait)
      ensures personas == old(personas) && recent == old(recent)
    {
      stats := Incr(stats, dominantTrait);
    }

    /** `getPersonaById`: the stored record, `null` for an unknown id. */
    function PersonaById(id: string): (r: Option<Persona>)
      reads this
      ensures r.None? <==> id !in personas
      ensures r.Some? ==> r.value == personas[id]
    {
      if id in personas then Some(personas[id]) else None
    }

    /** `getPersonaStats`: the four counters, 0 for a trait never counted. */
    function PersonaStats(): (r: Scores)
      reads this
      ensures forall t :: Score(r, t) == Count(stats, Name(t))
    {
      Report(stats)
    }

    /**
     * `getRecentPersonas(limit)`: the records of the ids the recent-set
     * query answered (`window`), in that order, skipping ids without a
     * record. Every member of the set has a record, so none is skipped.
     */
    method GetRecentPersonas(window: seq<string>, fail: bool) returns (r: Option<seq<Persona>>)
      requires Valid()
      requires forall id :: id in window ==> id in Ids(recent)
      ensures fail ==> r == None
      ensures !fail ==> r == Some(Found(window, personas))
      ensures !fail ==> |r.value| == |window| && forall i :: 0 <= i < |window| ==> window[i] in personas && r.value[i] == personas[window[i]]
    {
      if fail {
        return None;
      }
      var recentIds := window;
      forall id | id in recentIds ensures id in personas {
        var k :| 0 <= k < |recent| && Ids(recent)[k] == id;
        assert recent[k] in recent;
      }
      if |recentIds| == 0 {
        return Some([]);
      }
      var found: seq<Persona> := [];
      var i := 0;
      while i < |recentIds|
        invariant 0 <= i <= |recentIds|
        invariant found == Found(recentIds[..i], personas)
        invariant |found| == i && forall j :: 0 <= j < i ==> found[j] == personas[recentIds[j]]
      {
        var persona := PersonaById(recentIds[i]);
        if persona.Some? {
          found := found + [persona.value];
        }
        FoundAppend(recentIds[..i], recentIds[i], personas);
        assert recentIds[..i + 1] == recentIds[..i] + [recentIds[i]];
        i := i + 1;
      }
      assert recentIds[..i] == recentIds;
      return Some(found);
    }
  }
}
