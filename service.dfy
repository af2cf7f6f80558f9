/** The service object behind the HTTP endpoints: it validates nothing itself,
    files observations into the store and computes the report for a reputee. */
module Service {
  import opened Errors
  import opened Storage
  import Algorithms

  /** The report for one reputee: a (score, confidence) pair per metric. */
  datatype Report = Report(reach: Algorithms.Pair, clarity: Algorithms.Pair, clout: Algorithms.Pair)

  /** The value bounds the request schema enforces before an observation reaches
      the store: a number in [0, 10]. (The feature bound of the schema is the
      `Feature` type itself.) */
  predicate SchemaValid(data: Transaction)
  {
    0.0 <= data.repute.value <= 10.0
  }

  /** Every stored value lies within the schema's bounds. */
  predicate StoreInSchema(db: Db)
  {
    forall n, f: Feature | n in db && f in db[n].entries :: Algorithms.InValueRange(Values(db[n].entries[f]))
  }

  /** The report for a reputee: the clarity values and the reach values are
      read (not-found for an unknown name; once the first read succeeds the
      second cannot fail), then scored; the clout may fail. */
  function ScoresFor(db: Db, name: string): (r: Result<Report>)
    requires WellFormedDb(db)
    ensures r == Err(ReputeeNotFound) <==> name !in db
    ensures r.Ok? ==>
      && r.value.reach.confidence == Algorithms.ReachConfidenceAt(|db[name].entries[Reach]|)
      && r.value.clarity.confidence == Algorithms.ClarityConfidenceAt(|db[name].entries[Clarity]|)
  {
    var clarityVals :- StoreValues(db, name, Clarity);
    var reachVals := StoreValues(db, name, Reach).value;
    var clout :- Algorithms.Clout(clarityVals, reachVals);
    Ok(Report(Algorithms.Reach(reachVals), Algorithms.Clarity(clarityVals), clout))
  }

  // ---------------------------------------------------------------------------
  // Properties of the report

  /** A report fails with not-found exactly for an unknown name, and with a
      division by zero exactly for a known reputee whose two confidences cancel
      over non-empty value lists (see Algorithms.CloutFailsIff). */
  lemma ScoresForFailsIff(db: Db, name: string)
    requires WellFormedDb(db)
    ensures ScoresFor(db, name) == Err(ReputeeNotFound) <==> name !in db
    ensures ScoresFor(db, name) == Err(DivisionByZero) <==>
      && name in db
      && var c, r := |db[name].entries[Clarity]|, |db[name].entries[Reach]|;
      && c != 0 && r != 0
      && ((r <= 2 && c <= 4) || (r == 5 && c == 5))
    ensures ScoresFor(db, name).Err? ==> ScoresFor(db, name).error in {ReputeeNotFound, DivisionByZero}
  {
    if name in db {
      var cs, rs := Values(db[name].entries[Clarity]), Values(db[name].entries[Reach]);
      Algorithms.CloutFailsIff(cs, rs);
    }
  }

  /** For stored values within the schema, a report's reach and clarity scores
      lie in [0, 10], its confidences follow the count tables, and, unless
      exactly five reach values are stored, its clout score lies in [0, 1]. */
  lemma StoredScoresInRange(db: Db, name: string)
    requires WellFormedDb(db) && StoreInSchema(db)
    requires ScoresFor(db, name).Ok?
    ensures var rep := ScoresFor(db, name).value;
      && 0.0 <= rep.reach.score <= 10.0
      && 0.0 <= rep.clarity.score <= 10.0
      && rep.reach.confidence == Algorithms.ReachConfidenceAt(|db[name].entries[Reach]|)
      && rep.clarity.confidence == Algorithms.ClarityConfidenceAt(|db[name].entries[Clarity]|)
      && (|db[name].entries[Reach]| != 5 ==> 0.0 <= rep.clout.score <= 1.0)
  {
    var cs, rs := Values(db[name].entries[Clarity]), Values(db[name].entries[Reach]);
    assert Algorithms.InValueRange(cs) && Algorithms.InValueRange(rs);
    Algorithms.ScoresInRange(cs);
    Algorithms.ScoresInRange(rs);
    if |rs| != 5 {
      Algorithms.CloutScoreInUnitRange(cs, rs);
    }
  }

  /** Filing an observation that passed the schema keeps every stored value
      within the schema's bounds. */
  lemma UpdateKeepsSchema(db: Db, data: Transaction)
    requires WellFormedDb(db) && StoreInSchema(db) && SchemaValid(data)
    requires StoreAfterAdd(db, data).Ok?
    ensures StoreInSchema(StoreAfterAdd(db, data).value)
  {
    var db' := StoreAfterAdd(db, data).value;
    AddEffect(db, data);
    forall n, f: Feature | n in db' && f in db'[n].entries
      ensures Algorithms.InValueRange(Values(db'[n].entries[f]))
    {
      if n == data.reputee {
        AddAppendsValue(db, data, f);
        var was := if n in db then StoreValues(db, n, f).value else [];
        var now := Values(db'[n].entries[f]);
        assert Algorithms.InValueRange(was);
        assert now == if f == data.repute.feature then was + [data.repute.value] else was;
        forall i | 0 <= i < |now| ensures 0.0 <= now[i] <= 10.0 {
          if i < |was| {
            assert now[i] == was[i];
          }
        }
      } else {
        assert db'[n] == db[n];
      }
    }
  }

  /** The number of stored values of a feature of a reputee; 0 for an unknown name. */
  function Count(db: Db, name: string, f: Feature): nat
    requires WellFormedDb(db)
  {
    if name in db then |db[name].entries[f]| else 0
  }

  /** After an accepted observation its reputee is known: the report no longer
      fails with not-found, and fails with a division by zero exactly when the
      counts after the add (one more for the observation's feature) make the
      two confidences cancel. */
  lemma UpdateMakesKnown(db: Db, data: Transaction)
    requires WellFormedDb(db)
    requires StoreAfterAdd(db, data).Ok?
    ensures var r := ScoresFor(StoreAfterAdd(db, data).value, data.reputee);
      var name, f := data.reputee, data.repute.feature;
      var c := Count(db, name, Clarity) + (if f == Clarity then 1 else 0);
      var n := Count(db, name, Reach) + (if f == Reach then 1 else 0);
      && r != Err(ReputeeNotFound)
      && (r.Err? <==> c != 0 && n != 0 && ((n <= 2 && c <= 4) || (n == 5 && c == 5)))
  {
    var db' := StoreAfterAdd(db, data).value;
    AddAppendsValue(db, data, Clarity);
    AddAppendsValue(db, data, Reach);
    ScoresForFailsIff(db', data.reputee);
  }

  /** The first observation of a new reputee makes it known: its report is
      defined, with the value as the score of its feature at confidence 0,
      (0, 0) for the other feature, and a clout of (0, 0). */
  lemma FirstObservation(db: Db, data: Transaction)
    requires WellFormedDb(db) && data.reputee !in db
    ensures StoreAfterAdd(db, data).Ok?
    ensures var v, zero := data.repute.value, Algorithms.Pair(0.0, 0.0);
      ScoresFor(StoreAfterAdd(db, data).value, data.reputee) == Ok(
        if data.repute.feature == Reach then Report(Algorithms.Pair(v, 0.0), zero, zero)
        else Report(zero, Algorithms.Pair(v, 0.0), zero))
  {
    AddEffect(db, data);
    var db' := StoreAfterAdd(db, data).value;
    AddAppendsValue(db, data, Reach);
    AddAppendsValue(db, data, Clarity);
    var one := [data.repute.value];
    assert [] + one == one;
    assert Algorithms.Sum(one) == data.repute.value;
    assert Algorithms.Reach(one) == Algorithms.Pair(data.repute.value, 0.0);
    assert Algorithms.Clarity(one) == Algorithms.Pair(data.repute.value, 0.0);
    var cs, rs := if data.repute.feature == Clarity then one else [], if data.repute.feature == Reach then one else [];
    assert StoreValues(db', data.reputee, Clarity) == Ok(cs);
    assert StoreValues(db', data.reputee, Reach) == Ok(rs);
    assert Algorithms.Clout(cs, rs) == Ok(Algorithms.Pair(0.0, 0.0));
  }

  /** The reference data of the project's tests, evaluated with the model's
      functions. Nine values (sum 38.3) for each feature give the expected
      report. Five values (sum 30.3) give the expected scores of 6.06 and the
      expected clarity confidence, but a reach confidence of -1/8; two values
      give the expected reach and clarity pairs. With five and with two values
      for each feature the clout fails with a division by zero, where the
      tests expect a report. */
  lemma ReferenceReports()
    ensures var another := [0.0, 4.3, 6.0, 10.0, 10.0, 2.0, 2.0, 1.0, 3.0];
      && Algorithms.Reach(another) == Algorithms.Pair(38.3 / 9.0, 1.0)
      && Algorithms.Clarity(another) == Algorithms.Pair(38.3 / 9.0, 1.0)
      && Algorithms.Clout(another, another) == Ok(Algorithms.Pair(38.3 / 90.0, 1.0))
    ensures var you := [0.0, 4.3, 6.0, 10.0, 10.0];
      && Algorithms.Reach(you) == Algorithms.Pair(30.3 / 5.0, -0.125)
      && Algorithms.Clarity(you) == Algorithms.Pair(30.3 / 5.0, 0.125)
      && Algorithms.Clout(you, you) == Err(DivisionByZero)
    ensures var last := [1.0, 3.0];
      && Algorithms.Reach(last) == Algorithms.Pair(2.0, 0.0)
      && Algorithms.Clarity(last) == Algorithms.Pair(2.0, 0.0)
      && Algorithms.Clout(last, last) == Err(DivisionByZero)
  {
    var another := [0.0, 4.3, 6.0, 10.0, 10.0, 2.0, 2.0, 1.0, 3.0];
    var you := [0.0, 4.3, 6.0, 10.0, 10.0];
    var last := [1.0, 3.0];
    assert Algorithms.Sum(another) == 38.3;
    assert Algorithms.Sum(you) == 30.3;
    assert Algorithms.Sum(last) == 4.0;
    Algorithms.CloutFailsIff(you, you);
    Algorithms.CloutFailsIff(last, last);
  }

  // ---------------------------------------------------------------------------
  // The service object

  /** Owns the store; every stored value has passed the schema. */
  class Reptor {
    const db: SimpleStore

    ghost predicate Valid()
      reads this, db, db.dataByReputee.Values
    {
      db.Valid() && StoreInSchema(db.Contents)
    }

    constructor ()
      ensures Valid() && fresh(db) && db.Contents == map[]
    {
      db := new SimpleStore();
    }

    /** The report for a reputee, computed from the clarity values and the
        reach values it has stored. Changes nothing. */
    method CalcScores(name: string) returns (r: Result<Report>)
      requires Valid()
      ensures r == ScoresFor(db.Contents, name)
      ensures r == Err(ReputeeNotFound) <==> name !in db.Contents
      ensures r.Ok? ==> 0.0 <= r.value.reach.score <= 10.0 && 0.0 <= r.value.clarity.score <= 10.0
    {
      var clarityVals :- db.GetRepValues(name, Clarity);
      var reachResult := db.GetRepValues(name, Reach);
      var reachVals := reachResult.value;
      var clout :- Algorithms.Clout(clarityVals, reachVals);
      r := Ok(Report(Algorithms.Reach(reachVals), Algorithms.Clarity(clarityVals), clout));
      StoredScoresInRange(db.Contents, name);
      ScoresForFailsIff(db.Contents, name);
    }

    /** Files an observation that passed the schema; fails, changing nothing,
        for a rid already seen for that reputee and feature. */
    method Update(data: Transaction) returns (out: Outcome)
      requires Valid() && SchemaValid(data)
      modifies db, db.dataByReputee.Values
      ensures Valid()
      ensures out == OutcomeOf(StoreAfterAdd(old(db.Contents), data))
      ensures db.Contents == if out.Pass? then StoreAfterAdd(old(db.Contents), data).value else old(db.Contents)
      ensures forall n | n in old(db.dataByReputee) :: n in db.dataByReputee && db.dataByReputee[n] == old(db.dataByReputee[n])
      ensures forall m | m in db.dataByReputee.Values :: m in old(db.dataByReputee.Values) || fresh(m)
    {
      ghost var before := db.Contents;
      out := db.AddTransaction(data);
      if out.Pass? {
        UpdateKeepsSchema(before, data);
      }
    }
  }

  /** A client of the service: a fresh service accepts an observation, reports
      it as the reputee's first, and rejects the same observation submitted again. */
  method SubmitTwice(data: Transaction) returns (first: Outcome, report: Result<Report>, second: Outcome)
    requires SchemaValid(data)
    ensures first == Pass && second == Fail(RidDuplicate)
    ensures var v, zero := data.repute.value, Algorithms.Pair(0.0, 0.0);
      report == Ok(
        if data.repute.feature == Reach then Report(Algorithms.Pair(v, 0.0), zero, zero)
        else Report(zero, Algorithms.Pair(v, 0.0), zero))
  {
    var service := new Reptor();
    FirstObservation(map[], data);
    first := service.Update(data);
    report := service.CalcScores(data.reputee);
    ResubmissionRejected(map[], data, data);
    second := service.Update(data);
  }
}
