/** The main block of importers/localizer.py, restricted to the parts that
    decide what gets created: the SNP loop with its periodic flush, and the
    per-subject Center, Device and ScoreDefinition caches. */
module LocalizerMain {
  import opened Values
  import opened Store
  import Localizer

  /** The SNP loop flushes the store every FLUSH_EVERY SNPs. */
  const FLUSH_EVERY: nat := 100000

  /** The flushes the SNP loop makes while creating n SNPs: one after the SNP
      at each index ind with ind > 0 and ind % FLUSH_EVERY == 0. */
  function SnpFlushes(n: nat): nat
    decreases n
  {
    if n == 0 then 0
    else SnpFlushes(n - 1) + (if n - 1 > 0 && (n - 1) % FLUSH_EVERY == 0 then 1 else 0)
  }

  /** Going from m - 1 to m crosses a multiple of FLUSH_EVERY exactly when m
      is one. */
  lemma DivStep(m: nat)
    requires m >= 1
    ensures m / FLUSH_EVERY == (m - 1) / FLUSH_EVERY + (if m % FLUSH_EVERY == 0 then 1 else 0)
  {
    var q, r := (m - 1) / FLUSH_EVERY, (m - 1) % FLUSH_EVERY;
    assert m == q * FLUSH_EVERY + r + 1;
    if r + 1 < FLUSH_EVERY {
      assert m / FLUSH_EVERY == q && m % FLUSH_EVERY == r + 1;
    } else {
      assert m == (q + 1) * FLUSH_EVERY;
      assert m / FLUSH_EVERY == q + 1 && m % FLUSH_EVERY == 0;
    }
  }

  /** n SNPs cause (n - 1) / FLUSH_EVERY flushes inside the loop: none for up
      to FLUSH_EVERY SNPs, one more per further FLUSH_EVERY. */
  lemma {:induction false} SnpFlushesClosedForm(n: nat)
    ensures SnpFlushes(n) == if n == 0 then 0 else (n - 1) / FLUSH_EVERY
    decreases n
  {
    if n > 1 {
      SnpFlushesClosedForm(n - 1);
      DivStep(n - 1);
    }
  }

  /** The SNP loop: one Snp entity per rs id, in order, with a flush after
      every index ind > 0 divisible by FLUSH_EVERY. */
  method ImportSnps(store: Store, rsIds: seq<string>) returns (snpEids: seq<nat>)
    requires store.Valid()
    modifies store
    ensures store.Valid()
    ensures |snpEids| == |rsIds|
    ensures forall i :: 0 <= i < |rsIds| ==> snpEids[i] == old(store.nextEid) + i
    ensures store.nextEid == old(store.nextEid) + |rsIds|
    ensures CountType(store.log, "Snp") == old(CountType(store.log, "Snp")) + |rsIds|
    ensures Flushes(store.log) == old(Flushes(store.log)) + SnpFlushes(|rsIds|)
    ensures forall t, n :: t != "Snp" ==> Count(store.log, t, n) == old(Count(store.log, t, n))
    ensures old(store.log) <= store.log
    ensures forall i :: 0 <= i < |rsIds| ==> Created(snpEids[i], "Snp", rsIds[i], None) in store.log
  {
    snpEids := [];
    for ind := 0 to |rsIds|
      invariant store.Valid()
      invariant |snpEids| == ind
      invariant forall i :: 0 <= i < ind ==> snpEids[i] == old(store.nextEid) + i
      invariant store.nextEid == old(store.nextEid) + ind
      invariant CountType(store.log, "Snp") == old(CountType(store.log, "Snp")) + ind
      invariant Flushes(store.log) == old(Flushes(store.log)) + SnpFlushes(ind)
      invariant forall t, n :: t != "Snp" ==> Count(store.log, t, n) == old(Count(store.log, t, n))
      invariant old(store.log) <= store.log
      invariant forall i :: 0 <= i < ind ==> Created(snpEids[i], "Snp", rsIds[i], None) in store.log
    {
      var eid := ImportSnp(store, rsIds[ind], ind);
      snpEids := snpEids + [eid];
    }
  }

  /** One iteration of the SNP loop: the Snp entity for rsId, then a flush
      when ind > 0 is divisible by FLUSH_EVERY. */
  method ImportSnp(store: Store, rsId: string, ind: nat) returns (eid: nat)
    requires store.Valid()
    modifies store
    ensures store.Valid()
    ensures eid == old(store.nextEid) && store.nextEid == old(store.nextEid) + 1
    ensures CountType(store.log, "Snp") == old(CountType(store.log, "Snp")) + 1
    ensures Flushes(store.log) == old(Flushes(store.log)) + (if ind > 0 && ind % FLUSH_EVERY == 0 then 1 else 0)
    ensures forall t, n :: t != "Snp" ==> Count(store.log, t, n) == old(Count(store.log, t, n))
    ensures store.log == old(store.log) + [Created(eid, "Snp", rsId, None)]
      + (if ind > 0 && ind % FLUSH_EVERY == 0 then [Flushed] else [])
  {
    ghost var before := store.log;
    eid := store.CreateEntity("Snp", rsId, None);
    AppendEvent(before, Created(eid, "Snp", rsId, None));
    if ind > 0 && ind % FLUSH_EVERY == 0 {
      ghost var created := store.log;
      store.Flush();
      AppendEvent(created, Flushed);
    }
  }

  /** A cache of eids by name for entities of type etype: every name the log
      creates such an entity for is cached, exactly once, and the cached eid
      is that entity. */
  ghost predicate CachedOnce(cache: map<string, nat>, etype: string, log: seq<Event>) {
    && (forall n :: Count(log, etype, n) == if n in cache then 1 else 0)
    && (forall n :: n in cache ==> HasEntity(log, cache[n], etype, n))
  }

  /** Creating the entity for a name not yet cached and caching its eid keeps
      the cache exact. */
  lemma CacheAdd(cache: map<string, nat>, log: seq<Event>, eid: nat, etype: string, name: string, ref: Option<nat>)
    requires CachedOnce(cache, etype, log) && name !in cache
    ensures CachedOnce(cache[name := eid], etype, log + [Created(eid, etype, name, ref)])
  {
    var e := Created(eid, etype, name, ref);
    AppendEvent(log, e);
    assert (log + [e])[|log|] == e;
    forall n | n in cache ensures HasEntity(log + [e], cache[n], etype, n) {
      HasEntityAppend(log, e, cache[n], etype, n);
    }
  }

  /** An event that creates no entity of type etype leaves its cache exact. */
  lemma CacheOther(cache: map<string, nat>, etype: string, log: seq<Event>, e: Event)
    requires CachedOnce(cache, etype, log)
    requires !(e.Created? && e.etype == etype)
    ensures CachedOnce(cache, etype, log + [e])
  {
    AppendEvent(log, e);
    forall n | n in cache ensures HasEntity(log + [e], cache[n], etype, n) {
      HasEntityAppend(log, e, cache[n], etype, n);
    }
  }

  /** The names of the scores with a truthy value: those the score loop
      creates entities for. */
  function ScoredNames(scores: seq<Localizer.ScoreValue>): (names: set<string>)
    ensures forall n :: n in names ==> exists i :: 0 <= i < |scores| && scores[i].name == n && Truthy(scores[i].value)
    ensures forall i :: 0 <= i < |scores| && Truthy(scores[i].value) ==> scores[i].name in names
    decreases |scores|
  {
    if scores == [] then {}
    else
      var init := ScoredNames(scores[..|scores| - 1]);
      var last := scores[|scores| - 1];
      assert forall i :: 0 <= i < |scores| - 1 ==> scores[..|scores| - 1][i] == scores[i];
      init + (if Truthy(last.value) then {last.name} else {})
  }

  /** The number of scores with a truthy value. */
  function ScoredCount(scores: seq<Localizer.ScoreValue>): (n: nat)
    ensures n <= |scores|
    decreases |scores|
  {
    if scores == [] then 0
    else ScoredCount(scores[..|scores| - 1]) + (if Truthy(scores[|scores| - 1].value) then 1 else 0)
  }

  lemma ScoredStep(scores: seq<Localizer.ScoreValue>, i: nat)
    requires i < |scores|
    ensures ScoredNames(scores[..i + 1])
      == ScoredNames(scores[..i]) + (if Truthy(scores[i].value) then {scores[i].name} else {})
    ensures ScoredCount(scores[..i + 1]) == ScoredCount(scores[..i]) + (if Truthy(scores[i].value) then 1 else 0)
  {
    assert scores[..i + 1][..i] == scores[..i];
  }

  /** A cache that keeps every entry of an earlier one. */
  ghost predicate Extends(cache: map<string, nat>, earlier: map<string, nat>) {
    forall n :: n in earlier ==> n in cache && cache[n] == earlier[n]
  }

  lemma ExtendsUpdate(cache: map<string, nat>, name: string, eid: nat)
    requires name in cache ==> cache[name] == eid
    ensures Extends(cache[name := eid], cache)
    ensures cache[name := eid].Keys == cache.Keys + {name}
    ensures name in cache ==> cache[name := eid] == cache
  {
  }

  lemma KeysStep(now: set<string>, before: set<string>, initial: set<string>, seen: set<string>, name: string)
    requires now == before + {name} && before == initial + seen
    ensures now == initial + (seen + {name})
  {
  }

  lemma ExtendsTrans(c: map<string, nat>, b: map<string, nat>, a: map<string, nat>)
    requires Extends(c, b) && Extends(b, a)
    ensures Extends(c, a)
  {
  }

  /** Two creations of the same type and name in a log count twice. */
  lemma {:induction false} CountTwo(log: seq<Event>, i: nat, j: nat)
    requires i < j < |log| && log[i].Created? && log[j].Created?
    requires log[i].etype == log[j].etype && log[i].name == log[j].name
    ensures Count(log, log[i].etype, log[i].name) >= 2
    decreases |log|
  {
    var init := log[..|log| - 1];
    if j < |log| - 1 {
      CountTwo(init, i, j);
    } else {
      CountOne(init, i);
    }
  }

  lemma {:induction false} CountOne(log: seq<Event>, i: nat)
    requires i < |log| && log[i].Created?
    ensures Count(log, log[i].etype, log[i].name) >= 1
    decreases |log|
  {
    if i < |log| - 1 {
      CountOne(log[..|log| - 1], i);
    }
  }

  /** With an exact cache, the log holds at most one entity of that type per
      name: the first sight of a name creates it, later ones reuse it. */
  lemma CreatedAtMostOnce(cache: map<string, nat>, etype: string, log: seq<Event>, i: nat, j: nat)
    requires CachedOnce(cache, etype, log)
    requires i < |log| && j < |log| && log[i].Created? && log[j].Created?
    requires log[i].etype == etype && log[j].etype == etype && log[i].name == log[j].name
    ensures i == j
  {
    if i < j {
      CountTwo(log, i, j);
    } else if j < i {
      CountTwo(log, j, i);
    }
  }

  /** What one subject.json needs for the cached part of the subject loop
      to go through. */
  predicate Loadable(info: Record) {
    && "site" in info && info["site"] in Localizer.KNOWN_SITES
    && forall k :: k in Localizer.SUBJECT_FIELDS ==> k in info
  }

  /** What the score loop reads and changes: the store's log, the
      score_defs cache and the next eid the store hands out. */
  datatype ScoreState = ScoreState(log: seq<Event>, defs: map<string, nat>, next: nat)

  /** The definition eid of a score name: the cached one, or the next eid. */
  function DefEid(name: string, st: ScoreState): nat {
    if name in st.defs then st.defs[name] else st.next
  }

  /** The definition lookup of a score name: nothing happens when the name
      is cached; otherwise a new ScoreDefinition takes the next eid and is
      cached. */
  function DefStep(name: string, st: ScoreState): ScoreState {
    if name in st.defs then st
    else ScoreState(st.log + [Created(st.next, "ScoreDefinition", name, None)], st.defs[name := st.next], st.next + 1)
  }

  /** One truthy score: its definition lookup, then the ScoreValue holding
      str(value) and referring to the definition, and the related_infos
      relation from the subject to the ScoreValue. */
  function ScoreStep(subjectEid: nat, score: Localizer.ScoreValue, st: ScoreState): ScoreState {
    var defs := DefStep(score.name, st);
    var valueEid := defs.next;
    ScoreState(defs.log + [Created(valueEid, "ScoreValue", PyStr(score.value), Some(DefEid(score.name, st))),
                           Related(subjectEid, "related_infos", valueEid)],
               defs.defs, valueEid + 1)
  }

  /** The score loop of one subject from state st: falsy values are
      skipped, truthy ones take a ScoreStep, in order. */
  function ScoresRun(subjectEid: nat, scores: seq<Localizer.ScoreValue>, st: ScoreState): ScoreState
    decreases |scores|
  {
    if scores == [] then st
    else
      var before := ScoresRun(subjectEid, scores[..|scores| - 1], st);
      var last := scores[|scores| - 1];
      if Truthy(last.value) then ScoreStep(subjectEid, last, before) else before
  }

  /** The score loop only appends to the log and only adds to score_defs:
      the earlier log is a prefix and every earlier definition is kept. */
  lemma {:induction false} ScoresRunGrows(subjectEid: nat, scores: seq<Localizer.ScoreValue>, st: ScoreState)
    ensures st.log <= ScoresRun(subjectEid, scores, st).log
    ensures Extends(ScoresRun(subjectEid, scores, st).defs, st.defs)
    ensures ScoresRun(subjectEid, scores, st).next >= st.next
    decreases |scores|
  {
    if scores != [] {
      ScoresRunGrows(subjectEid, scores[..|scores| - 1], st);
    }
  }

  /** The score entries import_subject yields for a record: one per
      SCORE_TYPES name, None where the record lacks it. */
  function SubjectScores(info: Record): seq<Localizer.ScoreValue> {
    seq(|Localizer.SCORE_TYPES|, i requires 0 <= i < |Localizer.SCORE_TYPES| =>
      Localizer.ScoreValue(Localizer.SCORE_TYPES[i], Get(info, Localizer.SCORE_TYPES[i])))
  }

  /** The state after one subject: from the log and score_defs before it,
      the Subject takes eid subjectEid and its related_studies relation
      follows, then the score loop runs. */
  predicate SubjectAdded(st: ScoreState, log: seq<Event>, defs: map<string, nat>, subjectEid: nat, nip: Value,
                         scores: seq<Localizer.ScoreValue>, studyEid: nat) {
    st == ScoresRun(subjectEid, scores, ScoreState(log + SubjectEvents(subjectEid, nip, studyEid), defs, subjectEid + 1))
  }

  /** The subject of a record is in the log: its Subject, named by
      str(nip), and its related_studies relation. */
  predicate SubjectLogged(log: seq<Event>, subjectEid: nat, info: Record, studyEid: nat) {
    && "nip" in info
    && Created(subjectEid, "Subject", PyStr(info["nip"]), None) in log
    && Related(subjectEid, "related_studies", studyEid) in log
  }

  /** After one subject the earlier log is a prefix, and the Subject and its
      relation are in the log. */
  lemma SubjectAddedLogged(st: ScoreState, log: seq<Event>, defs: map<string, nat>, subjectEid: nat, info: Record,
                           scores: seq<Localizer.ScoreValue>, studyEid: nat)
    requires "nip" in info && SubjectAdded(st, log, defs, subjectEid, info["nip"], scores, studyEid)
    ensures log <= st.log
    ensures SubjectLogged(st.log, subjectEid, info, studyEid)
  {
    var start := ScoreState(log + SubjectEvents(subjectEid, info["nip"], studyEid), defs, subjectEid + 1);
    ScoresRunGrows(subjectEid, scores, start);
    assert st.log[|log|] == start.log[|log|];
    assert st.log[|log| + 1] == start.log[|log| + 1];
    assert st.log[..|log|] == start.log[..|log|];
  }

  /** A longer log keeps a logged subject. */
  lemma SubjectLoggedGrows(log: seq<Event>, longer: seq<Event>, subjectEid: nat, info: Record, studyEid: nat)
    requires log <= longer && SubjectLogged(log, subjectEid, info, studyEid)
    ensures SubjectLogged(longer, subjectEid, info, studyEid)
  {
    var i :| 0 <= i < |log| && log[i] == Created(subjectEid, "Subject", PyStr(info["nip"]), None);
    var j :| 0 <= j < |log| && log[j] == Related(subjectEid, "related_studies", studyEid);
    assert longer[i] == log[i] && longer[j] == log[j];
  }

  /** The i-th subject eid is logged for the i-th record of infos. */
  predicate AllLogged(log: seq<Event>, subjectEids: seq<nat>, infos: seq<Record>, studyEid: nat) {
    && |subjectEids| <= |infos|
    && forall j :: 0 <= j < |subjectEids| ==> SubjectLogged(log, subjectEids[j], infos[j], studyEid)
  }

  /** One more loaded subject on a longer log keeps every subject logged. */
  lemma AllLoggedStep(log: seq<Event>, longer: seq<Event>, subjectEids: seq<nat>, infos: seq<Record>, studyEid: nat,
                      subjectEid: nat)
    requires log <= longer && AllLogged(log, subjectEids, infos, studyEid) && |subjectEids| < |infos|
    requires SubjectLogged(longer, subjectEid, infos[|subjectEids|], studyEid)
    ensures AllLogged(longer, subjectEids + [subjectEid], infos, studyEid)
  {
    var next := subjectEids + [subjectEid];
    forall j | 0 <= j < |next| ensures SubjectLogged(longer, next[j], infos[j], studyEid) {
      if j < |subjectEids| {
        SubjectLoggedGrows(log, longer, subjectEids[j], infos[j], studyEid);
      }
    }
  }

  lemma PrefixTrans(a: seq<Event>, b: seq<Event>, c: seq<Event>, d: seq<Event>)
    requires a <= b && b <= c && c <= d
    ensures a <= d
  {
    assert d[..|a|] == c[..|a|];
  }

  /** The Subject named by str(nip), then its related_studies relation. */
  function SubjectEvents(subjectEid: nat, nip: Value, studyEid: nat): seq<Event> {
    [Created(subjectEid, "Subject", PyStr(nip), None), Related(subjectEid, "related_studies", studyEid)]
  }

  class Loader {
    const store: Store
    /** centers: Center eid by center name. */
    var centers: map<string, nat>
    /** devices: Device eid by device name. */
    var devices: map<string, nat>
    /** score_defs: ScoreDefinition eid by score name. */
    var scoreDefs: map<string, nat>

    ghost predicate Valid()
      reads this, store
    {
      && store.Valid()
      && CachedOnce(centers, "Center", store.log)
      && CachedOnce(devices, "Device", store.log)
      && CachedOnce(scoreDefs, "ScoreDefinition", store.log)
    }

    /** The three caches start empty, on a store that holds no Center,
        Device or ScoreDefinition yet. */
    constructor (store: Store)
      requires store.Valid()
      requires forall n :: Count(store.log, "Center", n) == 0
      requires forall n :: Count(store.log, "Device", n) == 0
      requires forall n :: Count(store.log, "ScoreDefinition", n) == 0
      ensures Valid() && this.store == store
      ensures centers == map[] && devices == map[] && scoreDefs == map[]
    {
      this.store := store;
      centers, devices, scoreDefs := map[], map[], map[];
    }

    /** The Centers block of the subject loop: import_center, then a new
        Center only when its name is not cached yet. An unknown site gives a
        record without a name, hence KeyError('name'). */
    method CacheCenter(info: Record) returns (r: Result<nat>)
      requires Valid()
      modifies this, store
      ensures Valid()
      ensures devices == old(devices) && scoreDefs == old(scoreDefs)
      ensures r.Ok? <==> "site" in info && info["site"] in Localizer.KNOWN_SITES
      ensures r.Err? ==> r.error == (if "site" in info then KeyError("name") else KeyError("site"))
      ensures r.Err? ==> centers == old(centers) && store.log == old(store.log) && store.nextEid == old(store.nextEid)
      ensures r.Ok? ==>
        var name := Localizer.ImportCenter(info).value.details.value.name;
        && centers == old(centers)[name := r.value]
        && (name in old(centers) ==>
              r.value == old(centers)[name] && store.log == old(store.log) && store.nextEid == old(store.nextEid))
        && (name !in old(centers) ==>
              r.value == old(store.nextEid) && store.log == old(store.log) + [Created(r.value, "Center", name, None)])
    {
      var center := Localizer.ImportCenter(info);
      if center.Err? {
        return Err(center.error);
      }
      if center.value.details.None? {
        return Err(KeyError("name"));
      }
      var name := center.value.details.value.name;
      if name !in centers {
        var eid := CreateCenter(name);
        r := Ok(eid);
      } else {
        r := Ok(centers[name]);
      }
    }

    /** A new Center entity for a name not cached yet, then cached. */
    method CreateCenter(name: string) returns (eid: nat)
      requires Valid() && name !in centers
      modifies this, store
      ensures Valid()
      ensures devices == old(devices) && scoreDefs == old(scoreDefs)
      ensures centers == old(centers)[name := eid]
      ensures eid == old(store.nextEid) && store.log == old(store.log) + [Created(eid, "Center", name, None)]
    {
      ghost var before := store.log;
      eid := store.CreateEntity("Center", name, None);
      CacheAdd(centers, before, eid, "Center", name, None);
      CacheOther(devices, "Device", before, Created(eid, "Center", name, None));
      CacheOther(scoreDefs, "ScoreDefinition", before, Created(eid, "Center", name, None));
      centers := centers[name := eid];
    }

    /** The Devices block: import_device, hosted_by replaced by the cached
        eid of the hosting center, then a new Device only when its name is
        not cached yet. */
    method CacheDevice(info: Record) returns (r: Result<nat>)
      requires Valid()
      modifies this, store
      ensures Valid()
      ensures centers == old(centers) && scoreDefs == old(scoreDefs)
      ensures r.Ok? <==>
        && "site" in info && info["site"] in Localizer.KNOWN_SITES
        && Localizer.ImportDevice(info).value.value.hostedBy in centers
      ensures r.Err? ==>
        r.error == (if "site" !in info then KeyError("site")
                    else if info["site"] !in Localizer.KNOWN_SITES then KeyError("hosted_by")
                    else KeyError(Localizer.ImportDevice(info).value.value.hostedBy))
      ensures r.Err? ==> devices == old(devices) && store.log == old(store.log) && store.nextEid == old(store.nextEid)
      ensures r.Ok? ==>
        var d := Localizer.ImportDevice(info).value.value;
        && devices == old(devices)[d.name := r.value]
        && (d.name in old(devices) ==>
              r.value == old(devices)[d.name] && store.log == old(store.log) && store.nextEid == old(store.nextEid))
        && (d.name !in old(devices) ==>
              && r.value == old(store.nextEid)
              && store.log == old(store.log) + [Created(r.value, "Device", d.name, Some(centers[d.hostedBy]))])
    {
      var device := Localizer.ImportDevice(info);
      if device.Err? {
        return Err(device.error);
      }
      if device.value.None? {
        return Err(KeyError("hosted_by"));
      }
      var d := device.value.value;
      if d.hostedBy !in centers {
        return Err(KeyError(d.hostedBy));
      }
      var hostedBy := centers[d.hostedBy];
      if d.name !in devices {
        var eid := CreateDevice(d.name, hostedBy);
        r := Ok(eid);
      } else {
        r := Ok(devices[d.name]);
      }
    }

    /** create_entity of a Device under a name not cached yet, then its
        cache entry. */
    method CreateDevice(name: string, hostedBy: nat) returns (eid: nat)
      requires Valid() && name !in devices
      modifies this, store
      ensures Valid()
      ensures centers == old(centers) && scoreDefs == old(scoreDefs)
      ensures devices == old(devices)[name := eid]
      ensures eid == old(store.nextEid) && store.log == old(store.log) + [Created(eid, "Device", name, Some(hostedBy))]
    {
      ghost var before := store.log;
      eid := store.CreateEntity("Device", name, Some(hostedBy));
      CacheOther(centers, "Center", before, Created(eid, "Device", name, Some(hostedBy)));
      CacheAdd(devices, before, eid, "Device", name, Some(hostedBy));
      CacheOther(scoreDefs, "ScoreDefinition", before, Created(eid, "Device", name, Some(hostedBy)));
      devices := devices[name := eid];
    }

    /** create_entity for a type none of the caches holds. */
    method CreateUncached(etype: string, name: string, ref: Option<nat>) returns (eid: nat)
      requires Valid() && etype != "Center" && etype != "Device" && etype != "ScoreDefinition"
      modifies store
      ensures Valid()
      ensures eid == old(store.nextEid) && store.nextEid == eid + 1
      ensures store.log == old(store.log) + [Created(eid, etype, name, ref)]
      ensures forall t :: CountType(store.log, t) == old(CountType(store.log, t)) + (if t == etype then 1 else 0)
    {
      ghost var before := store.log;
      eid := store.CreateEntity(etype, name, ref);
      var e := Created(eid, etype, name, ref);
      AppendEvent(before, e);
      CacheOther(centers, "Center", before, e);
      CacheOther(devices, "Device", before, e);
      CacheOther(scoreDefs, "ScoreDefinition", before, e);
    }

    /** relate, which no cache depends on. */
    method RelateUncached(subject: nat, rtype: string, target: nat)
      requires Valid()
      modifies store
      ensures Valid()
      ensures store.nextEid == old(store.nextEid)
      ensures store.log == old(store.log) + [Related(subject, rtype, target)]
      ensures forall t :: CountType(store.log, t) == old(CountType(store.log, t))
    {
      ghost var before := store.log;
      store.Relate(subject, rtype, target);
      var e := Related(subject, rtype, target);
      AppendEvent(before, e);
      CacheOther(centers, "Center", before, e);
      CacheOther(devices, "Device", before, e);
      CacheOther(scoreDefs, "ScoreDefinition", before, e);
    }

    /** The definition eid of a score name: the cached one, or a new
        ScoreDefinition that is cached. */
    method ScoreDefinition(name: string) returns (defEid: nat)
      requires Valid()
      modifies this, store
      ensures Valid()
      ensures centers == old(centers) && devices == old(devices)
      ensures scoreDefs == old(scoreDefs)[name := defEid]
      ensures scoreDefs.Keys == old(scoreDefs).Keys + {name} && Extends(scoreDefs, old(scoreDefs))
      ensures name in old(scoreDefs) ==>
        defEid == old(scoreDefs)[name] && store.log == old(store.log) && store.nextEid == old(store.nextEid)
      ensures name !in old(scoreDefs) ==>
        && defEid == old(store.nextEid) && store.nextEid == old(store.nextEid) + 1
        && store.log == old(store.log) + [Created(defEid, "ScoreDefinition", name, None)]
      ensures forall t :: t != "ScoreDefinition" ==> CountType(store.log, t) == old(CountType(store.log, t))
      ensures defEid == DefEid(name, ScoreState(old(store.log), old(scoreDefs), old(store.nextEid)))
      ensures ScoreState(store.log, scoreDefs, store.nextEid)
        == DefStep(name, ScoreState(old(store.log), old(scoreDefs), old(store.nextEid)))
    {
      ExtendsUpdate(scoreDefs, name, if name in scoreDefs then scoreDefs[name] else store.nextEid);
      if name in scoreDefs {
        defEid := scoreDefs[name];
      } else {
        ghost var before := store.log;
        defEid := store.CreateEntity("ScoreDefinition", name, None);
        var e := Created(defEid, "ScoreDefinition", name, None);
        AppendEvent(before, e);
        CacheOther(centers, "Center", before, e);
        CacheOther(devices, "Device", before, e);
        CacheAdd(scoreDefs, before, defEid, "ScoreDefinition", name, None);
        scoreDefs := scoreDefs[name := defEid];
      }
    }

    /** One truthy score: its definition, then the ScoreValue of the
        subject, which refers to the definition, and its related_infos
        relation. */
    method ImportScore(subjectEid: nat, score: Localizer.ScoreValue)
      requires Valid() && Truthy(score.value)
      modifies this, store
      ensures Valid()
      ensures centers == old(centers) && devices == old(devices)
      ensures scoreDefs.Keys == old(scoreDefs).Keys + {score.name}
      ensures Extends(scoreDefs, old(scoreDefs))
      ensures CountType(store.log, "ScoreValue") == old(CountType(store.log, "ScoreValue")) + 1
      ensures ScoreState(store.log, scoreDefs, store.nextEid)
        == ScoreStep(subjectEid, score, ScoreState(old(store.log), old(scoreDefs), old(store.nextEid)))
    {
      var defEid := ScoreDefinition(score.name);
      var valueEid := AddScoreValue(subjectEid, PyStr(score.value), defEid);
    }

    /** The ScoreValue with its text and definition, then the related_infos
        relation from the subject to it. */
    method AddScoreValue(subjectEid: nat, text: string, defEid: nat) returns (valueEid: nat)
      requires Valid()
      modifies store
      ensures Valid()
      ensures valueEid == old(store.nextEid) && store.nextEid == valueEid + 1
      ensures store.log == old(store.log) + [Created(valueEid, "ScoreValue", text, Some(defEid)),
                                             Related(subjectEid, "related_infos", valueEid)]
      ensures forall t :: CountType(store.log, t) == old(CountType(store.log, t)) + (if t == "ScoreValue" then 1 else 0)
    {
      ghost var log0 := store.log;
      valueEid := CreateUncached("ScoreValue", text, Some(defEid));
      RelateUncached(subjectEid, "related_infos", valueEid);
      assert store.log == log0 + [Created(valueEid, "ScoreValue", text, Some(defEid))]
                               + [Related(subjectEid, "related_infos", valueEid)];
    }

    /** The score loop of one subject: falsy values are skipped, and a
        ScoreDefinition is created at most once per score name. */
    method ImportScores(subjectEid: nat, scores: seq<Localizer.ScoreValue>)
      requires Valid()
      modifies this, store
      ensures Valid()
      ensures centers == old(centers) && devices == old(devices)
      ensures scoreDefs.Keys == old(scoreDefs).Keys + ScoredNames(scores)
      ensures Extends(scoreDefs, old(scoreDefs))
      ensures CountType(store.log, "ScoreValue") == old(CountType(store.log, "ScoreValue")) + ScoredCount(scores)
      ensures ScoreState(store.log, scoreDefs, store.nextEid)
        == ScoresRun(subjectEid, scores, ScoreState(old(store.log), old(scoreDefs), old(store.nextEid)))
    {
      for i := 0 to |scores|
        invariant Valid()
        invariant centers == old(centers) && devices == old(devices)
        invariant scoreDefs.Keys == old(scoreDefs).Keys + ScoredNames(scores[..i])
        invariant Extends(scoreDefs, old(scoreDefs))
        invariant CountType(store.log, "ScoreValue") == old(CountType(store.log, "ScoreValue")) + ScoredCount(scores[..i])
        invariant ScoreState(store.log, scoreDefs, store.nextEid)
          == ScoresRun(subjectEid, scores[..i], ScoreState(old(store.log), old(scoreDefs), old(store.nextEid)))
      {
        ScoredStep(scores, i);
        assert scores[..i + 1][..i] == scores[..i];
        if Truthy(scores[i].value) {
          ghost var defs := scoreDefs;
          ghost var count := CountType(store.log, "ScoreValue");
          ImportScore(subjectEid, scores[i]);
          ExtendsTrans(scoreDefs, defs, old(scoreDefs));
          KeysStep(scoreDefs.Keys, defs.Keys, old(scoreDefs).Keys, ScoredNames(scores[..i]), scores[i].name);
        }
      }
      assert scores[..|scores|] == scores;
    }

    /** import_subject, then the Subject with its related_studies relation
        and its scores. It returns the Subject's eid. */
    method AddSubject(info: Record, studyEid: nat) returns (r: Result<nat>)
      requires Valid()
      modifies this, store
      ensures Valid()
      ensures r.Ok? <==> forall k :: k in Localizer.SUBJECT_FIELDS ==> k in info
      ensures r.Err? ==> r.error == KeyError(FirstMissing(Localizer.SUBJECT_FIELDS, info))
      ensures centers == old(centers) && devices == old(devices) && Extends(scoreDefs, old(scoreDefs))
      ensures r.Err? ==> scoreDefs == old(scoreDefs) && store.log == old(store.log)
      ensures r.Ok? ==>
        && "nip" in info
        && r.value == old(store.nextEid)
        && SubjectAdded(ScoreState(store.log, scoreDefs, store.nextEid), old(store.log), old(scoreDefs),
                        r.value, info["nip"], SubjectScores(info), studyEid)
      ensures old(store.log) <= store.log
      ensures r.Ok? ==> SubjectLogged(store.log, r.value, info, studyEid)
    {
      var subject := Localizer.ImportSubject(info);
      if subject.Err? {
        return Err(subject.error);
      }
      assert "nip" in info by {
        assert Localizer.SUBJECT_FIELDS[0] == "nip";
      }
      ghost var log0, defs0 := store.log, scoreDefs;
      var subjectEid := AddImported(info["nip"], SubjectScores(info), studyEid);
      SubjectAddedLogged(ScoreState(store.log, scoreDefs, store.nextEid), log0, defs0, subjectEid, info,
                         SubjectScores(info), studyEid);
      r := Ok(subjectEid);
    }

    /** The store side of one imported subject: the Subject and its
        related_studies relation, then its scores. */
    method AddImported(nip: Value, scores: seq<Localizer.ScoreValue>, studyEid: nat) returns (subjectEid: nat)
      requires Valid()
      modifies this, store
      ensures Valid()
      ensures centers == old(centers) && devices == old(devices) && Extends(scoreDefs, old(scoreDefs))
      ensures subjectEid == old(store.nextEid)
      ensures SubjectAdded(ScoreState(store.log, scoreDefs, store.nextEid), old(store.log), old(scoreDefs),
                           subjectEid, nip, scores, studyEid)
    {
      subjectEid := CreateSubject(nip, studyEid);
      ImportScores(subjectEid, scores);
    }

    /** The Subject named by str(nip), then its related_studies relation. */
    method CreateSubject(nip: Value, studyEid: nat) returns (subjectEid: nat)
      requires Valid()
      modifies store
      ensures Valid()
      ensures subjectEid == old(store.nextEid) && store.nextEid == subjectEid + 1
      ensures store.log == old(store.log) + SubjectEvents(subjectEid, nip, studyEid)
    {
      ghost var log0 := store.log;
      subjectEid := CreateUncached("Subject", PyStr(nip), None);
      RelateUncached(subjectEid, "related_studies", studyEid);
      assert store.log == log0 + [Created(subjectEid, "Subject", PyStr(nip), None)]
                               + [Related(subjectEid, "related_studies", studyEid)];
    }

    /** The subject-loop steps that go through the caches, for one
        subject.json: center, device, then the subject and its scores. It
        returns the Subject's eid. */
    method LoadSubject(info: Record, studyEid: nat) returns (r: Result<nat>)
      requires Valid()
      modifies this, store
      ensures Valid()
      ensures r.Ok? <==> Loadable(info)
      ensures r.Err? && "site" !in info ==> r.error == KeyError("site")
      ensures r.Err? && "site" in info && info["site"] !in Localizer.KNOWN_SITES ==> r.error == KeyError("name")
      ensures r.Ok? ==> Cached(centers, devices, info)
      ensures Extends(centers, old(centers)) && Extends(devices, old(devices)) && Extends(scoreDefs, old(scoreDefs))
      ensures old(store.log) <= store.log
      ensures r.Ok? ==> SubjectLogged(store.log, r.value, info, studyEid)
    {
      ghost var centers0, log0 := centers, store.log;
      var center := CacheCenter(info);
      if center.Err? {
        return Err(center.error);
      }
      ExtendsUpdate(centers0, Localizer.ImportCenter(info).value.details.value.name, center.value);
      Localizer.DeviceHostedByCenter(info);
      ghost var devices0, log1 := devices, store.log;
      assert log0 <= log1;
      var device := CacheDevice(info);
      if device.Err? {
        assert false;
        return Err(KeyError("hosted_by"));
      }
      ExtendsUpdate(devices0, Localizer.ImportDevice(info).value.value.name, device.value);
      ghost var log2 := store.log;
      assert log1 <= log2;
      r := AddSubject(info, studyEid);
      PrefixTrans(log0, log1, log2, store.log);
    }

    /** The subject loop over the subject.json records, in listing order,
        stopping at the first failure. Afterwards every site seen has its
        Center and its Device cached, each created once. */
    method LoadSubjects(infos: seq<Record>, studyEid: nat) returns (r: Result<seq<nat>>)
      requires Valid()
      modifies this, store
      ensures Valid()
      ensures r.Ok? <==> AllLoadable(infos)
      ensures r.Ok? ==> |r.value| == |infos|
      ensures r.Ok? ==> Covers(centers, devices, infos)
      ensures Extends(centers, old(centers)) && Extends(devices, old(devices)) && Extends(scoreDefs, old(scoreDefs))
      ensures old(store.log) <= store.log
      ensures r.Ok? ==> AllLogged(store.log, r.value, infos, studyEid)
    {
      var subjects: seq<nat> := [];
      for i := 0 to |infos|
        invariant Valid()
        invariant |subjects| == i
        invariant Covers(centers, devices, infos[..i])
        invariant Extends(centers, old(centers)) && Extends(devices, old(devices)) && Extends(scoreDefs, old(scoreDefs))
        invariant old(store.log) <= store.log
        invariant AllLogged(store.log, subjects, infos, studyEid)
      {
        ghost var c, d, s, log := centers, devices, scoreDefs, store.log;
        var subject := LoadSubject(infos[i], studyEid);
        ExtendsTrans(centers, c, old(centers));
        ExtendsTrans(devices, d, old(devices));
        ExtendsTrans(scoreDefs, s, old(scoreDefs));
        if subject.Err? {
          CoversFailure(infos, i);
          return Err(subject.error);
        }
        CoversStep(centers, devices, c, d, infos, i);
        AllLoggedStep(log, store.log, subjects, infos, studyEid, subject.value);
        subjects := subjects + [subject.value];
      }
      assert infos[..|infos|] == infos;
      CoversLoadable(centers, devices, infos);
      r := Ok(subjects);
    }
  }

  /** A loadable record whose center and device names are cached. */
  predicate Cached(centers: map<string, nat>, devices: map<string, nat>, info: Record) {
    && Loadable(info)
    && Localizer.ImportCenter(info).value.details.value.name in centers
    && Localizer.ImportDevice(info).value.value.name in devices
  }

  lemma CachedExtends(centers: map<string, nat>, devices: map<string, nat>, c: map<string, nat>, d: map<string, nat>,
                      info: Record)
    requires Cached(c, d, info) && Extends(centers, c) && Extends(devices, d)
    ensures Cached(centers, devices, info)
  {
  }

  /** Every record of infos is loadable, with its center and device names
      cached. */
  predicate Covers(centers: map<string, nat>, devices: map<string, nat>, infos: seq<Record>) {
    forall j :: 0 <= j < |infos| ==> Cached(centers, devices, infos[j])
  }

  lemma CoversStep(centers: map<string, nat>, devices: map<string, nat>, c: map<string, nat>, d: map<string, nat>,
                   infos: seq<Record>, i: nat)
    requires i < |infos| && Covers(c, d, infos[..i])
    requires Extends(centers, c) && Extends(devices, d)
    requires Cached(centers, devices, infos[i])
    ensures Covers(centers, devices, infos[..i + 1])
  {
    forall j | 0 <= j < i ensures Cached(centers, devices, infos[j]) {
      assert infos[..i][j] == infos[j];
      CachedExtends(centers, devices, c, d, infos[j]);
    }
    var pre := infos[..i + 1];
    assert forall j :: 0 <= j < |pre| ==> pre[j] == infos[j];
  }

  predicate AllLoadable(infos: seq<Record>) {
    forall j :: 0 <= j < |infos| ==> Loadable(infos[j])
  }

  lemma CoversFailure(infos: seq<Record>, i: nat)
    requires i < |infos| && !Loadable(infos[i])
    ensures !AllLoadable(infos)
  {
  }

  lemma CoversLoadable(centers: map<string, nat>, devices: map<string, nat>, infos: seq<Record>)
    requires Covers(centers, devices, infos)
    ensures AllLoadable(infos)
  {
  }
}
