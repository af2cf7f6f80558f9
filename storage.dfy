/** The observation store: per reputee and per feature, an append-only list of
    accepted entries and the set of request ids already seen for deduplication.

    The abstract state is a value (`Db`, a map from reputee name to `Reputee`)
    with specification functions for each operation; the classes `ReputeeModel`
    and `SimpleStore` hold the mutable state and are proved to follow them. */
module Storage {
  import opened Errors

  /** The raw features the store keeps observations for; the composite
      clout metric is computed on demand and stores nothing. */
  datatype Feature = Reach | Clarity

  /** The feature registry, in the order a new reputee initialises them. */
  const FEATURES: seq<Feature> := [Reach, Clarity]

  /** The `repute` part of a submitted observation. */
  datatype Repute = Repute(rid: string, feature: Feature, value: real)

  /** A submitted observation, as the service receives it. */
  datatype Transaction = Transaction(reputer: string, reputee: string, repute: Repute)

  /** One stored observation; reputer and reputee are carried but never read. */
  datatype Entry = Entry(reputer: string, reputee: string, rid: string, feature: Feature, value: real)

  /** The entry stored for a submitted observation; it keeps every field, so
      the observation can be recovered from it. */
  function EntryOf(data: Transaction): (e: Entry)
    ensures TransactionOf(e) == data
  {
    Entry(data.reputer, data.reputee, data.repute.rid, data.repute.feature, data.repute.value)
  }

  /** The observation an entry was made from. */
  function TransactionOf(e: Entry): Transaction
  {
    Transaction(e.reputer, e.reputee, Repute(e.rid, e.feature, e.value))
  }

  /** The abstract value of one reputee: per feature, its entries and the rids seen. */
  datatype Reputee = Reputee(entries: map<Feature, seq<Entry>>, rids: map<Feature, set<string>>)

  /** The abstract value of the whole store. */
  type Db = map<string, Reputee>

  function RidsOf(es: seq<Entry>): set<string>
  {
    set e | e in es :: e.rid
  }

  predicate DistinctRids(es: seq<Entry>)
  {
    forall i, j | 0 <= i < j < |es| :: es[i].rid != es[j].rid
  }

  /** The invariant of a reputee: every registered feature has a list and a rid
      set, the set holds exactly the rids of the list, and those are distinct. */
  predicate WellFormed(r: Reputee)
  {
    forall f: Feature ::
      && f in r.entries
      && f in r.rids
      && r.rids[f] == RidsOf(r.entries[f])
      && DistinctRids(r.entries[f])
  }

  predicate WellFormedDb(db: Db)
  {
    forall n | n in db :: WellFormed(db[n])
  }

  /** A reputee as it is created: an empty list and an empty rid set for
      every feature of the registry. */
  function EmptyReputee(): (r: Reputee)
    ensures WellFormed(r)
    ensures forall f: Feature :: r.entries[f] == [] && r.rids[f] == {}
  {
    assert forall f: Feature :: f in FEATURES by {
      forall f: Feature ensures f in FEATURES {
        if f == Reach { assert FEATURES[0] == f; } else { assert FEATURES[1] == f; }
      }
    }
    Reputee(map f | f in FEATURES :: [], map f | f in FEATURES :: {})
  }

  /** Appending an entry whose rid is new keeps the rid set exact and the rids distinct. */
  lemma AppendFreshRid(es: seq<Entry>, e: Entry)
    requires DistinctRids(es) && e.rid !in RidsOf(es)
    ensures RidsOf(es + [e]) == RidsOf(es) + {e.rid}
    ensures DistinctRids(es + [e])
  {
    var es' := es + [e];
    forall x | x in es'
      ensures x.rid in RidsOf(es) + {e.rid}
    {
      if x != e {
        assert x in es;
      }
    }
    forall i, j | 0 <= i < j < |es'|
      ensures es'[i].rid != es'[j].rid
    {
      if j == |es| {
        assert es'[i] in es;
      }
    }
  }

  /** Adding an observation to one reputee: a rid already seen for that feature
      is rejected and nothing changes; otherwise the rid is recorded and the
      entry appended at the end of that feature's list. */
  function ReputeeAfterAdd(r: Reputee, data: Transaction): (res: Result<Reputee>)
    requires WellFormed(r)
    ensures res.Ok? ==> WellFormed(res.value)
  {
    var f := data.repute.feature;
    var rid := data.repute.rid;
    if rid !in r.rids[f] then
      AppendFreshRid(r.entries[f], EntryOf(data));
      Ok(Reputee(r.entries[f := r.entries[f] + [EntryOf(data)]], r.rids[f := r.rids[f] + {rid}]))
    else
      Err(RidDuplicate)
  }

  /** Adding an observation to the store: the reputee is created on first
      sight, then the observation is added to it. */
  function StoreAfterAdd(db: Db, data: Transaction): (res: Result<Db>)
    requires WellFormedDb(db)
    ensures res.Ok? ==> WellFormedDb(res.value)
  {
    var name := data.reputee;
    var reputee := if name in db then db[name] else EmptyReputee();
    var updated :- ReputeeAfterAdd(reputee, data);
    Ok(db[name := updated])
  }

  /** The values of a list of entries, one per entry, in order. */
  function Values(es: seq<Entry>): (vs: seq<real>)
    ensures |vs| == |es|
    ensures forall i | 0 <= i < |es| :: vs[i] == es[i].value
  {
    if es == [] then [] else [es[0].value] + Values(es[1..])
  }

  /** The stored values of one feature of one reputee. */
  function StoreValues(db: Db, name: string, f: Feature): (r: Result<seq<real>>)
    requires WellFormedDb(db)
    ensures r.Ok? <==> name in db
    ensures r.Err? ==> r.error == ReputeeNotFound
    ensures r.Ok? ==> |r.value| == |db[name].entries[f]|
    ensures r.Ok? ==> forall i | 0 <= i < |r.value| :: r.value[i] == db[name].entries[f][i].value
  {
    if name !in db then Err(ReputeeNotFound) else Ok(Values(db[name].entries[f]))
  }

  // ---------------------------------------------------------------------------
  // Properties of the specification

  /** An add succeeds exactly when the reputee is new or the rid is new for its
      feature. On success only that reputee's feature changes: its list gains
      the entry at the end and its rid set gains the rid; a new reputee starts
      from empty lists for every other feature; every other reputee is as before. */
  lemma AddEffect(db: Db, data: Transaction)
    requires WellFormedDb(db)
    ensures var name, f, rid := data.reputee, data.repute.feature, data.repute.rid;
      StoreAfterAdd(db, data).Ok? <==> (name !in db || rid !in db[name].rids[f])
    ensures var name, f, rid := data.reputee, data.repute.feature, data.repute.rid;
      var before := if name in db then db[name] else EmptyReputee();
      StoreAfterAdd(db, data).Ok? ==>
        var db' := StoreAfterAdd(db, data).value;
        && db'.Keys == db.Keys + {name}
        && (forall n | n in db && n != name :: db'[n] == db[n])
        && db'[name].entries[f] == before.entries[f] + [EntryOf(data)]
        && |db'[name].entries[f]| == |before.entries[f]| + 1
        && db'[name].rids[f] == before.rids[f] + {rid}
        && (forall g: Feature | g != f :: db'[name].entries[g] == before.entries[g] && db'[name].rids[g] == before.rids[g])
  {
  }

  /** Adding a rid already seen for that reputee and feature raises the
      duplicate error; this can only happen for a reputee already present. */
  lemma DuplicateRejected(db: Db, data: Transaction)
    requires WellFormedDb(db)
    ensures StoreAfterAdd(db, data).Err? <==>
      data.reputee in db && data.repute.rid in RidsOf(db[data.reputee].entries[data.repute.feature])
    ensures StoreAfterAdd(db, data).Err? ==> StoreAfterAdd(db, data).error == RidDuplicate
  {
  }

  /** Submitting the same (reputee, feature, rid) twice: the first is accepted,
      the second rejected, whatever its value, so the list grows by one, not two. */
  lemma ResubmissionRejected(db: Db, first: Transaction, second: Transaction)
    requires WellFormedDb(db)
    requires StoreAfterAdd(db, first).Ok?
    requires second.reputee == first.reputee
    requires second.repute.feature == first.repute.feature && second.repute.rid == first.repute.rid
    ensures StoreAfterAdd(StoreAfterAdd(db, first).value, second) == Err(RidDuplicate)
  {
    var db' := StoreAfterAdd(db, first).value;
    var name, f := first.reputee, first.repute.feature;
    AddEffect(db, first);
    assert first.repute.rid in db'[name].rids[f];
  }

  /** Deduplication is scoped per (reputee, feature): accepting an observation
      does not change whether an observation for another reputee or another
      feature is accepted, whatever its rid. */
  lemma DedupScopedPerFeature(db: Db, first: Transaction, second: Transaction)
    requires WellFormedDb(db)
    requires StoreAfterAdd(db, first).Ok?
    requires second.reputee != first.reputee || second.repute.feature != first.repute.feature
    ensures StoreAfterAdd(StoreAfterAdd(db, first).value, second).Ok? <==> StoreAfterAdd(db, second).Ok?
  {
    var db' := StoreAfterAdd(db, first).value;
    AddEffect(db, first);
    AddEffect(db, second);
    AddEffect(db', second);
    if second.reputee == first.reputee && first.reputee !in db {
      assert db'[second.reputee].rids[second.repute.feature] == {};
    }
  }

  /** The store-level add is the reputee-level add applied to the reputee as
      found, or as created for a new name: its outcome, and the reputee it
      leaves, determine the store it leaves. */
  lemma AddThroughReputee(db: Db, data: Transaction, base: Reputee, out: Outcome, after: Reputee)
    requires WellFormedDb(db)
    requires base == if data.reputee in db then db[data.reputee] else EmptyReputee()
    requires out == OutcomeOf(ReputeeAfterAdd(base, data))
    requires after == if out.Pass? then ReputeeAfterAdd(base, data).value else base
    ensures out == OutcomeOf(StoreAfterAdd(db, data))
    ensures db[data.reputee := after] == if out.Pass? then StoreAfterAdd(db, data).value else db
    ensures WellFormedDb(db[data.reputee := after])
  {
  }

  /** A query for a name never added fails with not-found. */
  lemma UnknownReputeeNotFound(db: Db, name: string, f: Feature)
    requires WellFormedDb(db) && name !in db
    ensures StoreValues(db, name, f) == Err(ReputeeNotFound)
  {
  }

  /** After an accepted add, the values of the reputee's feature are the values
      before (none for a new reputee) followed by the new value; the reputee's
      other feature keeps its values, empty for a reputee just created. */
  lemma AddAppendsValue(db: Db, data: Transaction, g: Feature)
    requires WellFormedDb(db)
    requires StoreAfterAdd(db, data).Ok?
    ensures var db', name, f := StoreAfterAdd(db, data).value, data.reputee, data.repute.feature;
      var was := if name in db then StoreValues(db, name, g).value else [];
      StoreValues(db', name, g) == Ok(if g == f then was + [data.repute.value] else was)
  {
    var db', name, f := StoreAfterAdd(db, data).value, data.reputee, data.repute.feature;
    var before := if name in db then db[name] else EmptyReputee();
    AddEffect(db, data);
    var now := Values(db'[name].entries[g]);
    var was := Values(before.entries[g]);
    if g == f {
      assert now == was + [data.repute.value];
    } else {
      assert now == was;
    }
  }

  // ---------------------------------------------------------------------------
  // The mutable store

  /** One reputee: per feature, the list of accepted entries and the set of rids seen. */
  class ReputeeModel {
    const name: string
    var entries: map<Feature, seq<Entry>>
    var rids: map<Feature, set<string>>

    function State(): Reputee
      reads this
    {
      Reputee(entries, rids)
    }

    ghost predicate Valid()
      reads this
    {
      WellFormed(State())
    }

    /** A new reputee, with an empty list and rid set for every registered feature. */
    constructor (name: string)
      ensures this.name == name
      ensures Valid() && State() == EmptyReputee()
    {
      this.name := name;
      var es: map<Feature, seq<Entry>> := map[];
      var rs: map<Feature, set<string>> := map[];
      for i := 0 to |FEATURES|
        invariant es == map f | f in FEATURES[..i] :: []
        invariant rs == map f | f in FEATURES[..i] :: {}
      {
        es := es[FEATURES[i] := []];
        rs := rs[FEATURES[i] := {}];
      }
      assert FEATURES[..|FEATURES|] == FEATURES;
      assert Reputee(es, rs) == EmptyReputee();
      entries := es;
      rids := rs;
    }

    /** Adds an observation unless its rid was already seen for its feature. */
    method AddData(data: Transaction) returns (out: Outcome)
      requires Valid()
      modifies this
      ensures Valid()
      ensures out == OutcomeOf(ReputeeAfterAdd(old(State()), data))
      ensures State() == if out.Pass? then ReputeeAfterAdd(old(State()), data).value else old(State())
    {
      var feature := data.repute.feature;
      var rid := data.repute.rid;
      if rid !in rids[feature] {
        rids := rids[feature := rids[feature] + {rid}];
        var entry := EntryOf(data);
        entries := entries[feature := entries[feature] + [entry]];
        out := Pass;
      } else {
        out := Fail(RidDuplicate);
      }
    }
  }

  /** The store: a table from reputee name to the reputee's model. */
  class SimpleStore {
    var dataByReputee: map<string, ReputeeModel>

    /** The abstract value of the store: the state of each filed model. */
    ghost var Contents: Db

    /** Each model is filed under its own name (so no two names share a model),
        `Contents` holds the state of each, and every reputee is well formed. */
    ghost predicate Valid()
      reads this, dataByReputee.Values
    {
      && dataByReputee.Keys == Contents.Keys
      && (forall n | n in dataByReputee :: dataByReputee[n].name == n && dataByReputee[n].State() == Contents[n])
      && WellFormedDb(Contents)
    }

    constructor ()
      ensures Valid() && Contents == map[]
    {
      dataByReputee := map[];
      Contents := map[];
    }

    /** The model of a reputee, or not-found for a name never added. */
    method GetReputee(name: string) returns (r: Result<ReputeeModel>)
      requires Valid()
      ensures r.Ok? <==> name in Contents
      ensures r.Ok? ==> r.value == dataByReputee[name] && r.value.State() == Contents[name]
      ensures r.Err? ==> r.error == ReputeeNotFound
    {
      if name in dataByReputee {
        r := Ok(dataByReputee[name]);
      } else {
        r := Err(ReputeeNotFound);
      }
    }

    /** Adds an observation, creating its reputee first if the name is new. */
    method AddTransaction(data: Transaction) returns (out: Outcome)
      requires Valid()
      modifies this, dataByReputee.Values
      ensures Valid()
      ensures out == OutcomeOf(StoreAfterAdd(old(Contents), data))
      ensures Contents == if out.Pass? then StoreAfterAdd(old(Contents), data).value else old(Contents)
      ensures forall n | n in old(dataByReputee) :: n in dataByReputee && dataByReputee[n] == old(dataByReputee[n])
      ensures forall m | m in dataByReputee.Values :: m in old(dataByReputee.Values) || fresh(m)
    {
      ghost var before := Contents;
      var name := data.reputee;
      var reputee: ReputeeModel;
      if name !in dataByReputee {
        reputee := new ReputeeModel(name);
        dataByReputee := dataByReputee[name := reputee];
      } else {
        reputee := dataByReputee[name];
      }
      ghost var base := reputee.State();
      out := reputee.AddData(data);
      AddThroughReputee(before, data, base, out, reputee.State());
      Contents := before[name := reputee.State()];
    }

    /** The values stored for a reputee's feature, one per entry, in insertion order. */
    method GetRepValues(name: string, feature: Feature) returns (r: Result<seq<real>>)
      requires Valid()
      ensures r == StoreValues(Contents, name, feature)
    {
      var reputee :- GetReputee(name);
      var entries := reputee.entries[feature];
      var values := new real[|entries|];
      for i := 0 to |entries|
        invariant forall j | 0 <= j < i :: values[j] == entries[j].value
      {
        values[i] := entries[i].value;
      }
      assert values[..] == Values(entries);
      r := Ok(values[..]);
    }
  }
}
