/** The object store the import writes into, reduced to what the main loop of
    importers/localizer.py relies on: every created entity gets the next
    fresh eid, and creations, relations and flushes are appended to a log. */
module Store {
  import opened Values

  /** One store call. A created entity keeps its type, its name attribute
      ("" when it has none) and at most one entity-valued attribute. */
  datatype Event =
    | Created(eid: nat, etype: string, name: string, ref: Option<nat>)
    | Related(subject: nat, rtype: string, target: nat)
    | Flushed

  /** The eids handed out by the creations of a log, in order. */
  function CreatedEids(log: seq<Event>): seq<nat>
    decreases |log|
  {
    if log == [] then []
    else
      var e := log[|log| - 1];
      CreatedEids(log[..|log| - 1]) + (if e.Created? then [e.eid] else [])
  }

  /** The number of entities of type etype named name that a log creates. */
  function Count(log: seq<Event>, etype: string, name: string): nat
    decreases |log|
  {
    if log == [] then 0
    else
      var e := log[|log| - 1];
      Count(log[..|log| - 1], etype, name) + (if e.Created? && e.etype == etype && e.name == name then 1 else 0)
  }

  /** The number of entities of type etype that a log creates. */
  function CountType(log: seq<Event>, etype: string): nat
    decreases |log|
  {
    if log == [] then 0
    else
      var e := log[|log| - 1];
      CountType(log[..|log| - 1], etype) + (if e.Created? && e.etype == etype then 1 else 0)
  }

  /** The number of flushes in a log. */
  function Flushes(log: seq<Event>): nat
    decreases |log|
  {
    if log == [] then 0
    else Flushes(log[..|log| - 1]) + (if log[|log| - 1].Flushed? then 1 else 0)
  }

  /** Appending one event changes each count by that event alone. */
  lemma AppendEvent(log: seq<Event>, e: Event)
    ensures CreatedEids(log + [e]) == CreatedEids(log) + (if e.Created? then [e.eid] else [])
    ensures forall t, n ::
      Count(log + [e], t, n) == Count(log, t, n) + (if e.Created? && e.etype == t && e.name == n then 1 else 0)
    ensures forall t :: CountType(log + [e], t) == CountType(log, t) + (if e.Created? && e.etype == t then 1 else 0)
    ensures Flushes(log + [e]) == Flushes(log) + (if e.Flushed? then 1 else 0)
  {
    assert (log + [e])[..|log|] == log;
  }

  /** Every created entity of a log is among its creations. */
  lemma {:induction false} CreatedIn(log: seq<Event>, i: nat)
    requires i < |log| && log[i].Created?
    ensures log[i].eid in CreatedEids(log)
    decreases |log|
  {
    if i < |log| - 1 {
      CreatedIn(log[..|log| - 1], i);
    }
  }

  /** 0, 1, ..., n - 1. */
  function Range(n: nat): (r: seq<nat>)
    ensures |r| == n && forall i :: 0 <= i < n ==> r[i] == i
  {
    seq(n, i requires 0 <= i < n => i)
  }

  /** A log holds an entity of type etype named name with this eid. */
  ghost predicate HasEntity(log: seq<Event>, eid: nat, etype: string, name: string) {
    exists i :: 0 <= i < |log| && log[i].Created? && log[i].eid == eid && log[i].etype == etype && log[i].name == name
  }

  lemma HasEntityAppend(log: seq<Event>, e: Event, eid: nat, etype: string, name: string)
    requires HasEntity(log, eid, etype, name)
    ensures HasEntity(log + [e], eid, etype, name)
  {
    var i :| 0 <= i < |log| && log[i].Created? && log[i].eid == eid && log[i].etype == etype && log[i].name == name;
    assert (log + [e])[i] == log[i];
  }

  class Store {
    /** The eid the next creation returns. */
    var nextEid: nat
    /** Every call made so far, oldest first. */
    var log: seq<Event>

    /** The eids handed out are exactly 0, 1, ..., nextEid - 1, in order. */
    ghost predicate Valid()
      reads this
    {
      CreatedEids(log) == Range(nextEid)
    }

    constructor ()
      ensures Valid() && nextEid == 0 && log == []
    {
      nextEid := 0;
      log := [];
    }

    /** create_entity: a fresh eid for a new entity. */
    method CreateEntity(etype: string, name: string, ref: Option<nat>) returns (eid: nat)
      requires Valid()
      modifies this
      ensures Valid()
      ensures eid == old(nextEid) && nextEid == old(nextEid) + 1
      ensures log == old(log) + [Created(eid, etype, name, ref)]
    {
      eid := nextEid;
      AppendEvent(log, Created(eid, etype, name, ref));
      log := log + [Created(eid, etype, name, ref)];
      nextEid := nextEid + 1;
    }

    /** relate: a relation between two existing entities. */
    method Relate(subject: nat, rtype: string, target: nat)
      requires Valid()
      modifies this
      ensures Valid()
      ensures nextEid == old(nextEid) && log == old(log) + [Related(subject, rtype, target)]
    {
      AppendEvent(log, Related(subject, rtype, target));
      log := log + [Related(subject, rtype, target)];
    }

    /** flush: pending inserts are written out; no entity changes. */
    method Flush()
      requires Valid()
      modifies this
      ensures Valid()
      ensures nextEid == old(nextEid) && log == old(log) + [Flushed]
    {
      AppendEvent(log, Flushed);
      log := log + [Flushed];
    }
  }

  /** In a valid store no two creations share an eid, and every eid is below
      nextEid. */
  lemma FreshEids(log: seq<Event>, nextEid: nat, i: nat, j: nat)
    requires CreatedEids(log) == Range(nextEid)
    requires i < |log| && log[i].Created?
    requires j < |log| && log[j].Created? && i != j
    ensures log[i].eid != log[j].eid
    ensures log[i].eid < nextEid
  {
    CreatedIn(log, i);
    CreatedBefore(log, i, j);
  }

  /** A later creation's eid comes later in CreatedEids. */
  lemma {:induction false} CreatedBefore(log: seq<Event>, i: nat, j: nat)
    requires i < |log| && log[i].Created?
    requires j < |log| && log[j].Created? && i != j
    ensures exists a, b ::
      && 0 <= a < |CreatedEids(log)| && 0 <= b < |CreatedEids(log)| && a != b
      && CreatedEids(log)[a] == log[i].eid && CreatedEids(log)[b] == log[j].eid
    decreases |log|
  {
    var init := log[..|log| - 1];
    if i < |log| - 1 && j < |log| - 1 {
      CreatedBefore(init, i, j);
      var a, b :| 0 <= a < |CreatedEids(init)| && 0 <= b < |CreatedEids(init)| && a != b
        && CreatedEids(init)[a] == log[i].eid && CreatedEids(init)[b] == log[j].eid;
      assert CreatedEids(log)[a] == log[i].eid && CreatedEids(log)[b] == log[j].eid;
    } else if i == |log| - 1 {
      CreatedIn(init, j);
      var b :| 0 <= b < |CreatedEids(init)| && CreatedEids(init)[b] == log[j].eid;
      var a := |CreatedEids(init)|;
      assert CreatedEids(log)[a] == log[i].eid && CreatedEids(log)[b] == log[j].eid;
    } else {
      CreatedIn(init, i);
      var a :| 0 <= a < |CreatedEids(init)| && CreatedEids(init)[a] == log[i].eid;
      var b := |CreatedEids(init)|;
      assert CreatedEids(log)[a] == log[i].eid && CreatedEids(log)[b] == log[j].eid;
    }
  }
}
