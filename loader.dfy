/**
 * The manager that stores entities in the graph database, assigning uids so that
 * a shared commission or ministry is created at most once, and the top-level load.
 */
module Loader {
  import opened Wrappers
  import opened PyStr
  import opened CheckData
  import opened Entities

  // ----- Which commissions a deputy's creation creates -----

  /** The uids of the commissions `cs`, in order. */
  ghost function Uids(cs: seq<Commission>): seq<Option<string>>
    reads cs
  {
    seq(|cs|, k reads cs requires 0 <= k < |cs| => cs[k].uid)
  }

  /** `before` gives one uid per commission: a commission listed twice has one uid. */
  ghost predicate Consistent(cs: seq<Commission>, before: seq<Option<string>>)
    requires |before| == |cs|
  {
    forall j, k | 0 <= j < |cs| && 0 <= k < |cs| && cs[j] == cs[k] :: before[j] == before[k]
  }

  /** The uids of the objects are consistent: an object listed twice has one uid. */
  lemma UidsConsistent(cs: seq<Commission>)
    ensures Consistent(cs, Uids(cs))
  {
  }

  /**
   * The commissions that storing a deputy with commissions `cs` creates, in order,
   * when `before` are their uids: those without one, each at its first occurrence only.
   */
  function NewCommissions(cs: seq<Commission>, before: seq<Option<string>>): seq<Commission>
    requires |before| == |cs|
  {
    if cs == [] then []
    else
      var n := |cs| - 1;
      NewCommissions(cs[..n], before[..n]) + (if before[n] == None && cs[n] !in cs[..n] then [cs[n]] else [])
  }

  /** Only commissions of `cs` are created. */
  lemma {:induction false} NewCommissionsWithin(cs: seq<Commission>, before: seq<Option<string>>)
    requires |before| == |cs|
    ensures forall c | c in NewCommissions(cs, before) :: c in cs
  {
    if cs != [] {
      var n := |cs| - 1;
      NewCommissionsWithin(cs[..n], before[..n]);
      assert cs == cs[..n] + [cs[n]];
    }
  }

  /** Exactly the commissions of `cs` without a uid are created. */
  lemma {:induction false} NewCommissionsMembers(cs: seq<Commission>, before: seq<Option<string>>)
    requires |before| == |cs| && Consistent(cs, before)
    ensures forall k | 0 <= k < |cs| :: cs[k] in NewCommissions(cs, before) <==> before[k] == None
  {
    if cs != [] {
      var n := |cs| - 1;
      var init, b := cs[..n], before[..n];
      var prev := NewCommissions(init, b);
      assert Consistent(init, b) by {
        forall j, k | 0 <= j < n && 0 <= k < n && init[j] == init[k]
          ensures b[j] == b[k]
        {
          assert cs[j] == cs[k];
        }
      }
      NewCommissionsMembers(init, b);
      NewCommissionsWithin(init, b);
      forall k | 0 <= k < |cs|
        ensures cs[k] in NewCommissions(cs, before) <==> before[k] == None
      {
        if cs[n] in init {
          var j :| 0 <= j < n && init[j] == cs[n];
          assert before[j] == before[n];
          if k < n {
            assert init[k] == cs[k] && b[k] == before[k];
          } else {
            assert init[j] == cs[k] && b[j] == before[k];
          }
        } else if k < n {
          assert init[k] == cs[k] && b[k] == before[k];
          assert cs[k] != cs[n];
        }
      }
    }
  }

  ghost predicate NoDuplicates(s: seq<Commission>) {
    forall i, j | 0 <= i < j < |s| :: s[i] != s[j]
  }

  /** None of them is created twice, whatever the repetitions in `cs`. */
  lemma {:induction false} NewCommissionsDistinct(cs: seq<Commission>, before: seq<Option<string>>)
    requires |before| == |cs|
    ensures NoDuplicates(NewCommissions(cs, before))
  {
    if cs != [] {
      var n := |cs| - 1;
      var c := cs[n];
      var prev := NewCommissions(cs[..n], before[..n]);
      var created := NewCommissions(cs, before);
      NewCommissionsDistinct(cs[..n], before[..n]);
      NewCommissionsWithin(cs[..n], before[..n]);
      forall i, j | 0 <= i < j < |created|
        ensures created[i] != created[j]
      {
        assert created[..|prev|] == prev;
        assert created[i] == prev[i];
        if j >= |prev| {
          assert created == prev + [c] && created[j] == c;
          assert prev[i] in prev;
        } else {
          assert created[j] == prev[j] && prev[i] != prev[j];
        }
      }
    }
  }

  /** The commissions `created` got consecutive uids, the first being the `n`-th the database gives out. */
  ghost predicate NumberedFrom(created: seq<Commission>, n: nat)
    reads created
  {
    forall k | 0 <= k < |created| :: created[k].uid == Some(DgraphUid(n + k))
  }

  /** The mutations that create the commissions: each sent without a uid. */
  function CreationDicts(created: seq<Commission>): seq<Dict> {
    if created == [] then []
    else CreationDicts(created[..|created| - 1]) + [CommissionDict(created[|created| - 1].name, None)]
  }

  lemma CreationDictsSnoc(created: seq<Commission>, c: Commission)
    ensures CreationDicts(created + [c]) == CreationDicts(created) + [CommissionDict(c.name, None)]
  {
    assert (created + [c])[..|created|] == created;
  }

  /** One step of the loop over a deputy's commissions, on the created list alone. */
  lemma NewCommissionsStep(cs: seq<Commission>, before: seq<Option<string>>, i: nat)
    requires i < |cs| == |before|
    ensures NewCommissions(cs[..i + 1], before[..i + 1]) == NewCommissions(cs[..i], before[..i])
      + (if before[i] == None && cs[i] !in cs[..i] then [cs[i]] else [])
  {
    assert cs[..i + 1][..i] == cs[..i];
    assert before[..i + 1][..i] == before[..i];
  }

  /** `DgraphPoliticalSystemManager`: stores entities through one database connection. */
  class Manager {
    const db: Database

    constructor (db: Database)
      ensures this.db == db
    {
      this.db := db;
    }

    /** Stores a commission that has no uid and records the uid it is given. */
    method CreateCommission(commission: Commission)
      requires db.Valid() && commission.uid == None
      modifies db, commission
      ensures db.Valid() && db.log == old(db.log) + [CommissionDict(commission.name, None)]
      ensures db.next == old(db.next) + 1 && commission.uid == Some(DgraphUid(old(db.next)))
    {
      var u := db.Mutate(commission.ToDict());
      commission.uid := Some(u);
    }

    /**
     * How far the loop over a deputy's commissions `cs` has got after `i` of them,
     * when `before` were their uids and the database had answered `next0` mutations
     * and held `log0`.
     */
    ghost predicate Progress(cs: seq<Commission>, before: seq<Option<string>>, i: nat,
                             created: seq<Commission>, next0: nat, log0: seq<Dict>)
      requires |before| == |cs|
      reads this, db, cs, created
    {
      && i <= |cs|
      && created == NewCommissions(cs[..i], before[..i])
      && Recorded(cs, before, created, next0, log0)
    }

    /**
     * The database and the commissions once `created` have been created, in order:
     * they got the next uids, the other commissions kept theirs, and the log holds
     * their creations.
     */
    ghost predicate Recorded(cs: seq<Commission>, before: seq<Option<string>>,
                             created: seq<Commission>, next0: nat, log0: seq<Dict>)
      requires |before| == |cs|
      reads this, db, cs, created
    {
      && db.Valid()
      && db.next == next0 + |created|
      && NumberedFrom(created, next0)
      && (forall k | 0 <= k < |cs| :: cs[k] !in created ==> cs[k].uid == before[k])
      && db.log == log0 + CreationDicts(created)
    }

    /**
     * The body of the loop of `create_representative` over a deputy's commissions:
     * a commission without a uid is created, and the uid it is given recorded.
     */
    method VisitCommission(cs: seq<Commission>, ghost before: seq<Option<string>>, i: nat,
                           ghost created: seq<Commission>, ghost next0: nat, ghost log0: seq<Dict>)
      returns (ghost created': seq<Commission>)
      requires i < |cs| == |before| && Consistent(cs, before)
      requires Progress(cs, before, i, created, next0, log0)
      modifies db, cs[i]
      ensures Progress(cs, before, i + 1, created', next0, log0)
    {
      var commission := cs[i];
      NewCommissionsStep(cs, before, i);
      assert (commission.uid == None) <==> before[i] == None && commission !in cs[..i] by {
        if commission in created {
          var n :| 0 <= n < |created| && created[n] == commission;
          NewCommissionsWithin(cs[..i], before[..i]);
        } else if before[i] == None && commission in cs[..i] {
          var j :| 0 <= j < i && cs[..i][j] == commission;
          NewCommissionsMembers(cs[..i], before[..i]);
        }
      }
      if commission.uid == None {
        assert commission !in created;
        created' := CreateNew(cs, before, i, created, next0, log0);
      } else {
        created' := created;
      }
    }

    /** That body for a commission without a uid, seen for the first time. */
    method CreateNew(cs: seq<Commission>, ghost before: seq<Option<string>>, i: nat,
                     ghost created: seq<Commission>, ghost next0: nat, ghost log0: seq<Dict>)
      returns (ghost created': seq<Commission>)
      requires i < |cs| == |before| && Recorded(cs, before, created, next0, log0)
      requires cs[i].uid == None && cs[i] !in created
      modifies db, cs[i]
      ensures created' == created + [cs[i]] && Recorded(cs, before, created', next0, log0)
    {
      var commission := cs[i];
      ghost var log := db.log;
      CreateCommission(commission);
      CreationDictsSnoc(created, commission);
      created' := created + [commission];
      assert db.log == log0 + CreationDicts(created');
      forall k | 0 <= k < |created'|
        ensures created'[k].uid == Some(DgraphUid(next0 + k))
      {
        if k < |created| {
          assert created'[k] == created[k] != commission;
          assert created[k].uid == old(created[k].uid);
        }
      }
      forall k | 0 <= k < |cs| && cs[k] !in created'
        ensures cs[k].uid == before[k]
      {
        assert cs[k] != commission;
        assert cs[k].uid == old(cs[k].uid);
      }
    }

    /**
     * The loop of `create_representative` over a deputy's commissions: creates each
     * commission that has no uid yet and records the uid it is given.
     */
    method CreateCommissions(cs: seq<Commission>) returns (ghost created: seq<Commission>)
      requires db.Valid()
      modifies db, cs
      ensures db.Valid() && created == NewCommissions(cs, old(Uids(cs)))
      ensures db.next == old(db.next) + |created|
      ensures NumberedFrom(created, old(db.next))
      ensures forall c | c in cs && c !in created :: c.uid == old(c.uid)
      ensures db.log == old(db.log) + CreationDicts(created)
      ensures forall c | c in cs :: c.uid.Some?
    {
      ghost var before, next0, log0 := Uids(cs), db.next, db.log;
      UidsConsistent(cs);
      created := VisitCommissions(cs, before, next0, log0);
      LoopDone(cs, before, created, next0, log0);
      assert next0 == old(db.next);
    }

    /** The loop itself: visits every commission in turn, keeping the loop's progress invariant. */
    method VisitCommissions(cs: seq<Commission>, ghost before: seq<Option<string>>,
                            ghost next0: nat, ghost log0: seq<Dict>)
      returns (ghost created: seq<Commission>)
      requires |cs| == |before| && Consistent(cs, before)
      requires Progress(cs, before, 0, [], next0, log0)
      modifies db, cs
      ensures Progress(cs, before, |cs|, created, next0, log0)
    {
      created := [];
      for i := 0 to |cs|
        invariant Progress(cs, before, i, created, next0, log0)
      {
        created := VisitCommission(cs, before, i, created, next0, log0);
      }
    }

    /** What the loop over a deputy's commissions has done once it has visited them all. */
    lemma LoopDone(cs: seq<Commission>, before: seq<Option<string>>,
                   created: seq<Commission>, next0: nat, log0: seq<Dict>)
      requires |before| == |cs| && Consistent(cs, before)
      requires Progress(cs, before, |cs|, created, next0, log0)
      ensures created == NewCommissions(cs, before)
      ensures db.Valid() && db.next == next0 + |created| && db.log == log0 + CreationDicts(created)
      ensures NumberedFrom(created, next0)
      ensures forall k | 0 <= k < |cs| && cs[k] !in created :: cs[k].uid == before[k]
      ensures forall k | 0 <= k < |cs| :: cs[k].uid.Some?
    {
      assert cs[..|cs|] == cs && before[..|cs|] == before;
      NewCommissionsMembers(cs, before);
      forall k | 0 <= k < |cs|
        ensures cs[k].uid.Some?
      {
        if cs[k] in created {
          var n :| 0 <= n < |created| && created[n] == cs[k];
        }
      }
    }

    /**
     * `create_representative` on a Deputy: creates each of the deputy's commissions
     * that has no uid yet and records its uid, then creates the deputy and records its uid.
     */
    method CreateDeputy(deputy: Deputy) returns (uid: string, ghost created: seq<Commission>)
      requires db.Valid()
      modifies db, deputy, deputy.commissions
      ensures db.Valid() && deputy.commissions == old(deputy.commissions)
      ensures created == NewCommissions(deputy.commissions, old(Uids(deputy.commissions)))
      ensures NumberedFrom(created, old(db.next))
      ensures forall c | c in deputy.commissions && c !in created :: c.uid == old(c.uid)
      ensures db.log == old(db.log) + CreationDicts(created)
        + [DeputyDict(deputy.name, deputy.party, WorkAt(deputy.commissions), old(deputy.uid))]
      ensures uid == DgraphUid(old(db.next) + |created|) && deputy.uid == Some(uid)
      ensures forall c | c in deputy.commissions :: c.uid.Some?
    {
      created := CreateCommissions(deputy.commissions);
      ghost var mid, next := db.log, db.next;
      assert next == old(db.next) + |created| && deputy.uid == old(deputy.uid);
      uid := StoreDeputy(deputy);
      assert uid == DgraphUid(next);
      assert db.log == mid + [DeputyDict(deputy.name, deputy.party, WorkAt(deputy.commissions), old(deputy.uid))];
    }

    /** The last step of `create_representative` on a Deputy: the deputy's own mutation. */
    method StoreDeputy(deputy: Deputy) returns (uid: string)
      requires db.Valid()
      modifies db, deputy
      ensures db.Valid() && deputy.commissions == old(deputy.commissions)
      ensures db.log == old(db.log) + [DeputyDict(deputy.name, deputy.party, WorkAt(deputy.commissions), old(deputy.uid))]
      ensures uid == DgraphUid(old(db.next)) && deputy.uid == Some(uid)
      ensures forall c | c in deputy.commissions :: c.uid == old(c.uid)
    {
      uid := db.Mutate(deputy.ToDict());
      deputy.uid := Some(uid);
    }

    /**
     * `create_representative` on a Minister: creates the minister's ministry if it
     * has no uid yet and records its uid, then creates the minister and records its uid.
     */
    method CreateMinister(minister: Minister) returns (uid: string)
      requires db.Valid()
      modifies db, minister, minister.ministry
      ensures db.Valid() && minister.ministry.minister == old(minister.ministry.minister)
      ensures var m := minister.ministry;
        var ministerDict := MinisterDict(minister.name, minister.party, m.ToDict(), old(minister.uid));
        if old(m.uid) == None then
          && m.uid == Some(DgraphUid(old(db.next)))
          && db.log == old(db.log) + [MinistryDict(m.name, None), ministerDict]
          && uid == DgraphUid(old(db.next) + 1)
        else
          && m.uid == old(m.uid)
          && db.log == old(db.log) + [ministerDict]
          && uid == DgraphUid(old(db.next))
      ensures minister.uid == Some(uid) && minister.ministry.uid.Some?
    {
      var ministry := minister.ministry;
      if ministry.uid == None {
        var u := db.Mutate(ministry.ToDict());
        ministry.uid := Some(u);
      }
      uid := db.Mutate(minister.ToDict());
      minister.uid := Some(uid);
    }

    /**
     * `create_law_in_commission`: a new law of the commission, stored with the
     * commission's dictionary as `developed_by`; the commission itself is left as it is.
     */
    method CreateLawInCommission(commission: Commission, title: string, lawType: string,
                                 link: Option<string>, createdAt: string) returns (law: Law)
      requires db.Valid()
      modifies db
      ensures db.Valid() && fresh(law) && law.commission == commission
      ensures law.title == title && law.lawType == lawType && law.link == link && law.createdAt == createdAt
      ensures law.uid == Some(DgraphUid(old(db.next)))
      ensures db.log == old(db.log) + [LawDict(title, lawType, link, createdAt, Some(commission.ToDict()), None)]
    {
      law := commission.CreateLaw(title, lawType, link, createdAt);
      var u := db.Mutate(law.ToDict());
      law.uid := Some(u);
    }
  }

  // ----- The load: `main` -----

  /** The exceptions that end the load early. */
  datatype LoadError = IndexError | KeyError

  datatype Outcome = Done | Aborted(error: LoadError)

  /** What storing a bill of `projets_de_loi` raises: its first reading is looked up unguarded. */
  function ProjetError(b: Bill): Option<LoadError> {
    if |b.readings| == 0 then Some(IndexError)
    else if b.readings[0].commission.None? then Some(KeyError)
    else None
  }

  /** The error of the first of `bills` whose storing raises. */
  function FirstProjetError(bills: seq<Bill>): Option<LoadError> {
    if bills == [] then None
    else if ProjetError(bills[0]).Some? then ProjetError(bills[0])
    else FirstProjetError(bills[1..])
  }

  /** The error that ends the load: the first failing bill, else a text without commission. */
  function ExpectedOutcome(laws: LawsExport): Outcome {
    match FirstProjetError(laws.projets)
    case Some(e) => Aborted(e)
    case None =>
      if exists t | t in laws.textes :: t.commission.None? then Aborted(KeyError) else Done
  }

  /** The first bill that raises decides the error. */
  lemma {:induction false} FirstProjetErrorAt(bills: seq<Bill>, i: nat)
    requires i < |bills| && ProjetError(bills[i]).Some?
    requires forall j | 0 <= j < i :: ProjetError(bills[j]).None?
    ensures FirstProjetError(bills) == ProjetError(bills[i])
  {
    if i > 0 {
      assert ProjetError(bills[0]).None?;
      FirstProjetErrorAt(bills[1..], i - 1);
    }
  }

  /** No error is reported exactly when no bill raises. */
  lemma {:induction false} FirstProjetErrorNone(bills: seq<Bill>)
    ensures FirstProjetError(bills).None? <==> forall j | 0 <= j < |bills| :: ProjetError(bills[j]).None?
  {
    if bills != [] {
      FirstProjetErrorNone(bills[1..]);
      assert forall j | 1 <= j < |bills| :: bills[1..][j - 1] == bills[j];
    }
  }

  /** The uid each commission of the table has, by name. */
  ghost function UidTable(m: map<string, Commission>): map<string, Option<string>>
    reads m.Values
  {
    map k | k in m :: m[k].uid
  }

  /**
   * The commissions of a table whose uids are `u` and the mutations of `log`: the
   * dictionary that creates a commission occurs once in the log if the commission
   * has a uid, and never otherwise.
   */
  ghost predicate Counted(u: map<string, Option<string>>, log: seq<Dict>) {
    forall k {:trigger CommissionDict(k, None)} | k in u ::
      multiset(log)[CommissionDict(k, None)] == (if u[k].Some? then 1 else 0)
  }

  /** A mutation of another type of node leaves every commission's count as it was. */
  lemma CountedOther(u: map<string, Option<string>>, log: seq<Dict>, d: Dict)
    requires Counted(u, log)
    requires "dgraph.type" in d && d["dgraph.type"] != JStr("Commission")
    ensures Counted(u, log + [d])
  {
    forall k | k in u
      ensures multiset(log + [d])[CommissionDict(k, None)] == (if u[k].Some? then 1 else 0)
    {
      assert CommissionDict(k, None)["dgraph.type"] != d["dgraph.type"];
    }
  }

  /** Creating a commission that has no uid counts it once, and no other. */
  lemma CountedCreate(u: map<string, Option<string>>, log: seq<Dict>, key: string, uid: string)
    requires Counted(u, log) && key in u && u[key] == None
    ensures Counted(u[key := Some(uid)], log + [CommissionDict(key, None)])
  {
    forall k | k in u && k != key
      ensures multiset(log + [CommissionDict(key, None)])[CommissionDict(k, None)] == multiset(log)[CommissionDict(k, None)]
    {
      assert CommissionDict(k, None)["name"] != CommissionDict(key, None)["name"];
    }
  }

  /** The mutations that storing deputy record `d` sends, when the table's uids are `u`. */
  ghost function DeputyMutations(d: DeputyRecord, u: map<string, Option<string>>, next: nat): seq<Dict>
    requires SitsInCommission(d) ==> CommissionOf(d) in u
  {
    if SitsInCommission(d) then
      var k := CommissionOf(d);
      if u[k] == None then
        [CommissionDict(k, None), DeputyDict(d.name, d.party, [CommissionDict(k, Some(DgraphUid(next)))], None)]
      else
        [DeputyDict(d.name, d.party, [CommissionDict(k, u[k])], None)]
    else
      [DeputyDict(d.name, d.party, [], None)]
  }

  /**
   * The table's uids after storing deputy record `d`: a uid once set is kept, and
   * the deputy's commission has one.
   */
  ghost function UidsAfterDeputy(d: DeputyRecord, u: map<string, Option<string>>, next: nat)
    : (after: map<string, Option<string>>)
    requires SitsInCommission(d) ==> CommissionOf(d) in u
    ensures after.Keys == u.Keys
    ensures forall k | k in u && u[k].Some? :: after[k] == u[k]
    ensures SitsInCommission(d) ==> after[CommissionOf(d)].Some?
  {
    if SitsInCommission(d) && u[CommissionOf(d)] == None then u[CommissionOf(d) := Some(DgraphUid(next))] else u
  }

  /** Storing a deputy keeps every commission counted once its uid is set. */
  lemma DeputyKeepsCounted(d: DeputyRecord, u: map<string, Option<string>>, log: seq<Dict>, next: nat)
    requires Counted(u, log) && (SitsInCommission(d) ==> CommissionOf(d) in u)
    ensures Counted(UidsAfterDeputy(d, u, next), log + DeputyMutations(d, u, next))
  {
    var muts := DeputyMutations(d, u, next);
    var dd := muts[|muts| - 1];
    assert dd["dgraph.type"] == JStr("Deputy");
    if SitsInCommission(d) && u[CommissionOf(d)] == None {
      var k := CommissionOf(d);
      CountedCreate(u, log, k, DgraphUid(next));
      CountedOther(u[k := Some(DgraphUid(next))], log + [CommissionDict(k, None)], dd);
      assert log + muts == log + [CommissionDict(k, None)] + [dd];
    } else {
      CountedOther(u, log, dd);
    }
  }

  /** How far the loop over the deputies has got: the mutations sent, the uid table, the counter. */
  datatype DeputyRun = DeputyRun(log: seq<Dict>, uids: map<string, Option<string>>, next: nat)

  /**
   * The loop of `main` over the deputy records `records`, from uid table `u` with
   * `next` mutations answered: each record's mutations in turn.
   */
  ghost function DeputiesRun(records: seq<DeputyRecord>, u: map<string, Option<string>>, next: nat)
    : (r: DeputyRun)
    requires forall d {:trigger CommissionOf(d)} | d in records && SitsInCommission(d) :: CommissionOf(d) in u
    ensures r.uids.Keys == u.Keys && r.next == next + |r.log|
    decreases |records|
  {
    if records == [] then DeputyRun([], u, next)
    else
      var n := |records| - 1;
      var prev := DeputiesRun(records[..n], u, next);
      var muts := DeputyMutations(records[n], prev.uids, prev.next);
      DeputyRun(prev.log + muts, UidsAfterDeputy(records[n], prev.uids, prev.next), prev.next + |muts|)
  }

  predicate IsDeputyDict(d: Dict) {
    && "dgraph.type" in d && d["dgraph.type"] == JStr("Deputy")
    && "name" in d && d["name"].JStr? && "party" in d && d["party"].JStr?
  }

  /** The name and party of each Deputy mutation of `log`, in order. */
  function DeputiesSent(log: seq<Dict>): seq<(string, string)> {
    if log == [] then []
    else
      var d := log[|log| - 1];
      DeputiesSent(log[..|log| - 1]) + (if IsDeputyDict(d) then [(d["name"].str, d["party"].str)] else [])
  }

  lemma {:induction false} DeputiesSentAppend(a: seq<Dict>, b: seq<Dict>)
    ensures DeputiesSent(a + b) == DeputiesSent(a) + DeputiesSent(b)
    decreases |b|
  {
    if b == [] {
      assert a + b == a;
    } else {
      var n := |b| - 1;
      var ab := a + b;
      assert ab[..|ab| - 1] == a + b[..n] && ab[|ab| - 1] == b[n];
      DeputiesSentAppend(a, b[..n]);
    }
  }

  /** The sent list of a short log, element by element. */
  lemma DeputiesSentPair(x: Dict, y: Dict)
    ensures DeputiesSent([x, y]) == DeputiesSent([x]) + DeputiesSent([y])
  {
    DeputiesSentAppend([x], [y]);
    assert [x] + [y] == [x, y];
  }

  /** The name and party of each record, in order. */
  function Records(records: seq<DeputyRecord>): seq<(string, string)> {
    seq(|records|, i requires 0 <= i < |records| => (records[i].name, records[i].party))
  }

  lemma RecordsSnoc(records: seq<DeputyRecord>)
    requires records != []
    ensures var n := |records| - 1;
      Records(records) == Records(records[..n]) + [(records[n].name, records[n].party)]
  {
  }

  /** Storing one record sends exactly one Deputy mutation, with the record's name and party. */
  lemma DeputySentOnce(d: DeputyRecord, u: map<string, Option<string>>, next: nat)
    requires SitsInCommission(d) ==> CommissionOf(d) in u
    ensures DeputiesSent(DeputyMutations(d, u, next)) == [(d.name, d.party)]
  {
    var muts := DeputyMutations(d, u, next);
    var dd := muts[|muts| - 1];
    assert IsDeputyDict(dd) && dd["name"].str == d.name && dd["party"].str == d.party;
    var last: seq<Dict> := [dd];
    assert DeputiesSent(last) == [(d.name, d.party)] by {
      assert last[..0] == [];
    }
    if |muts| == 2 {
      var cd := muts[0];
      assert cd["dgraph.type"] == JStr("Commission");
      var one: seq<Dict> := [cd];
      assert DeputiesSent(one) == [] by {
        assert one[..0] == [];
      }
      assert muts == [cd, dd];
      DeputiesSentPair(cd, dd);
    } else {
      assert muts == [dd];
    }
  }

  /** One more record of the deputy loop. */
  lemma DeputiesRunSnoc(records: seq<DeputyRecord>, i: nat, u: map<string, Option<string>>, next: nat)
    requires i < |records|
    requires forall d {:trigger CommissionOf(d)} | d in records && SitsInCommission(d) :: CommissionOf(d) in u
    ensures forall d {:trigger CommissionOf(d)} | d in records[..i] && SitsInCommission(d) :: CommissionOf(d) in u
    ensures var prev := DeputiesRun(records[..i], u, next);
      var muts := DeputyMutations(records[i], prev.uids, prev.next);
      DeputiesRun(records[..i + 1], u, next)
        == DeputyRun(prev.log + muts, UidsAfterDeputy(records[i], prev.uids, prev.next), prev.next + |muts|)
  {
    assert records[..i + 1][..i] == records[..i];
    assert records[..i + 1][i] == records[i];
    forall d | d in records[..i] ensures d in records {
    }
  }

  /** The deputy loop sends one Deputy mutation per record, in the order of the records. */
  lemma {:induction false} DeputiesRunSendsEach(records: seq<DeputyRecord>, u: map<string, Option<string>>, next: nat)
    requires forall d {:trigger CommissionOf(d)} | d in records && SitsInCommission(d) :: CommissionOf(d) in u
    ensures DeputiesSent(DeputiesRun(records, u, next).log) == Records(records)
    decreases |records|
  {
    if records != [] {
      var n := |records| - 1;
      DeputiesRunSnoc(records, n, u, next);
      assert records[..n + 1] == records;
      var prev := DeputiesRun(records[..n], u, next);
      var muts := DeputyMutations(records[n], prev.uids, prev.next);
      DeputiesRunSendsEach(records[..n], u, next);
      DeputiesSentAppend(prev.log, muts);
      DeputySentOnce(records[n], prev.uids, prev.next);
      RecordsSnoc(records);
    }
  }

  /**
   * The deputy loop keeps every commission counted, keeps the uids already set,
   * and leaves each record's commission with a uid.
   */
  lemma {:induction false} DeputiesRunCounted(records: seq<DeputyRecord>, u: map<string, Option<string>>,
                                              log: seq<Dict>, next: nat)
    requires forall d {:trigger CommissionOf(d)} | d in records && SitsInCommission(d) :: CommissionOf(d) in u
    requires Counted(u, log)
    ensures var r := DeputiesRun(records, u, next);
      && Counted(r.uids, log + r.log)
      && (forall k | k in u && u[k].Some? :: r.uids[k] == u[k])
      && (forall d {:trigger CommissionOf(d)} | d in records && SitsInCommission(d) :: r.uids[CommissionOf(d)].Some?)
    decreases |records|
  {
    if records != [] {
      var n := |records| - 1;
      DeputiesRunSnoc(records, n, u, next);
      assert records[..n + 1] == records;
      var prev := DeputiesRun(records[..n], u, next);
      var muts := DeputyMutations(records[n], prev.uids, prev.next);
      var after := UidsAfterDeputy(records[n], prev.uids, prev.next);
      assert DeputiesRun(records, u, next) == DeputyRun(prev.log + muts, after, prev.next + |muts|);
      DeputiesRunCounted(records[..n], u, log, next);
      DeputyKeepsCounted(records[n], prev.uids, log + prev.log, prev.next);
      AppendAssoc(log, prev.log, muts);
      forall d {:trigger CommissionOf(d)} | d in records && SitsInCommission(d)
        ensures after[CommissionOf(d)].Some?
      {
        if d != records[n] {
          assert d in records[..n];
        }
      }
    }
  }

  /** A table that differs from `u` at most at `k`. */
  lemma TableUpdate(now: map<string, Option<string>>, u: map<string, Option<string>>, k: string)
    requires now.Keys == u.Keys && k in u && forall j | j in u && j != k :: now[j] == u[j]
    ensures now == u[k := now[k]]
  {
  }

  /** The commissions of a deputy with one commission: it is created if it has no uid. */
  lemma NewCommissionsSingle(c: Commission, u: Option<string>)
    ensures NewCommissions([c], [u]) == if u == None then [c] else []
  {
    assert [c][..0] == [] && [u][..0] == [];
  }

  /** `dict_commissions`: a new commission, not yet stored, for each name. */
  method BuildCommissions(names: set<string>) returns (m: map<string, Commission>)
    ensures m.Keys == names
    ensures forall k | k in m :: fresh(m[k]) && m[k].name == k && m[k].uid == None
  {
    m := map[];
    var remaining := names;
    while remaining != {}
      invariant remaining <= names && m.Keys == names - remaining
      invariant forall k | k in m :: fresh(m[k]) && m[k].name == k && m[k].uid == None
      decreases |remaining|
    {
      var c :| c in remaining;
      var commission := new Commission(c);
      m := m[c := commission];
      remaining := remaining - {c};
    }
  }

  /** `dict_ministry`: a new ministry, not yet stored, for each name. */
  method BuildMinistries(names: set<string>) returns (m: map<string, Ministry>)
    ensures m.Keys == names
    ensures forall k | k in m :: fresh(m[k]) && m[k].name == k && m[k].uid == None
  {
    m := map[];
    var remaining := names;
    while remaining != {}
      invariant remaining <= names && m.Keys == names - remaining
      invariant forall k | k in m :: fresh(m[k]) && m[k].name == k && m[k].uid == None
      decreases |remaining|
    {
      var c :| c in remaining;
      var ministry := new Ministry(c);
      m := m[c := ministry];
      remaining := remaining - {c};
    }
  }

  /**
   * A deputy of the 2016-2021 export as an object: given the commission its
   * function names, unless it has no function or the function is a parliamentary group.
   */
  method NewDeputy(d: DeputyRecord, m: map<string, Commission>) returns (deputy: Deputy)
    requires SitsInCommission(d) ==> CommissionOf(d) in m
    ensures fresh(deputy) && deputy.name == d.name && deputy.party == d.party && deputy.uid == None
    ensures deputy.commissions == if SitsInCommission(d) then [m[CommissionOf(d)]] else []
  {
    deputy := new Deputy(d.name, d.party);
    if d.role.Some? {
      if Contains(d.role.value, GroupWord) {
      } else {
        deputy.AddCommission(m[ProcessCommission(d.role.value)]);
      }
    }
  }

  /** The body of the loop over the deputies of 2016-2021: the deputy is stored. */
  method StoreDeputyRecord(manager: Manager, d: DeputyRecord, m: map<string, Commission>)
    requires manager.db.Valid() && forall k | k in m :: m[k].name == k
    requires SitsInCommission(d) ==> CommissionOf(d) in m
    modifies manager.db, if SitsInCommission(d) then {m[CommissionOf(d)]} else {}
    ensures manager.db.Valid()
    ensures manager.db.log == old(manager.db.log) + DeputyMutations(d, old(UidTable(m)), old(manager.db.next))
    ensures UidTable(m) == UidsAfterDeputy(d, old(UidTable(m)), old(manager.db.next))
  {
    var deputy := NewDeputy(d, m);
    if deputy.commissions == [] {
      StoreLoneDeputy(manager, d, deputy);
    } else {
      StoreSittingDeputy(manager, d, m, deputy);
    }
  }

  /** `create_representative` on a deputy of one commission. */
  method StoreSittingDeputy(manager: Manager, d: DeputyRecord, m: map<string, Commission>, deputy: Deputy)
    requires manager.db.Valid() && forall k | k in m :: m[k].name == k
    requires SitsInCommission(d) && CommissionOf(d) in m
    requires deputy.name == d.name && deputy.party == d.party && deputy.uid == None
    requires deputy.commissions == [m[CommissionOf(d)]]
    modifies manager.db, deputy, m[CommissionOf(d)]
    ensures manager.db.Valid()
    ensures manager.db.log == old(manager.db.log) + DeputyMutations(d, old(UidTable(m)), old(manager.db.next))
    ensures UidTable(m) == UidsAfterDeputy(d, old(UidTable(m)), old(manager.db.next))
  {
    ghost var u, next := UidTable(m), manager.db.next;
    var k := CommissionOf(d);
    var c := m[k];
    if c.uid == None {
      StoreWithNewCommission(manager, d, c, deputy);
    } else {
      StoreWithKnownCommission(manager, d, c, deputy);
    }
    ghost var now := UidTable(m);
    forall j | j in m && j != k
      ensures now[j] == u[j]
    {
      assert m[j] != c;
    }
    TableUpdate(now, u, k);
  }

  /** `create_representative` on a deputy without commission: only the deputy is sent. */
  method StoreLoneDeputy(manager: Manager, d: DeputyRecord, deputy: Deputy)
    requires manager.db.Valid()
    requires deputy.name == d.name && deputy.party == d.party && deputy.uid == None && deputy.commissions == []
    modifies manager.db, deputy
    ensures manager.db.Valid()
    ensures manager.db.log == old(manager.db.log) + [DeputyDict(d.name, d.party, [], None)]
  {
    assert NewCommissions([], Uids([])) == [];
    var uid, created := manager.CreateDeputy(deputy);
    assert WorkAt([]) == [];
  }

  /** The `work_at` list of a deputy of one commission. */
  lemma WorkAtSingle(c: Commission)
    ensures WorkAt([c]) == [CommissionDict(c.name, c.uid)]
  {
  }

  /** `create_representative` on a deputy whose one commission has no uid yet: it is created first. */
  method StoreWithNewCommission(manager: Manager, d: DeputyRecord, c: Commission, deputy: Deputy)
    requires manager.db.Valid() && c.uid == None
    requires deputy.name == d.name && deputy.party == d.party && deputy.uid == None && deputy.commissions == [c]
    modifies manager.db, deputy, c
    ensures manager.db.Valid() && c.uid == Some(DgraphUid(old(manager.db.next)))
    ensures manager.db.log == old(manager.db.log) + [CommissionDict(c.name, None),
      DeputyDict(d.name, d.party, [CommissionDict(c.name, c.uid)], None)]
  {
    NewCommissionsSingle(c, None);
    assert Uids([c]) == [None];
    var uid, created := manager.CreateDeputy(deputy);
    assert created == [c] && CreationDicts(created) == [CommissionDict(c.name, None)];
    WorkAtSingle(c);
  }

  /** `create_representative` on a deputy whose one commission has a uid: only the deputy is sent. */
  method StoreWithKnownCommission(manager: Manager, d: DeputyRecord, c: Commission, deputy: Deputy)
    requires manager.db.Valid() && c.uid != None
    requires deputy.name == d.name && deputy.party == d.party && deputy.uid == None && deputy.commissions == [c]
    modifies manager.db, deputy, c
    ensures manager.db.Valid() && c.uid == old(c.uid)
    ensures manager.db.log == old(manager.db.log) + [DeputyDict(d.name, d.party, [CommissionDict(c.name, c.uid)], None)]
  {
    NewCommissionsSingle(c, c.uid);
    assert Uids([c]) == [c.uid];
    var uid, created := manager.CreateDeputy(deputy);
    assert created == [];
    WorkAtSingle(c);
  }

  /** The loop of `main` over the deputies of 2016-2021. */
  method StoreDeputies(manager: Manager, records: seq<DeputyRecord>, m: map<string, Commission>)
    requires manager.db.Valid() && forall k | k in m :: m[k].name == k
    requires forall d {:trigger CommissionOf(d)} | d in records && SitsInCommission(d) :: CommissionOf(d) in m
    requires Counted(UidTable(m), manager.db.log)
    modifies manager.db, m.Values
    ensures manager.db.Valid() && Counted(UidTable(m), manager.db.log)
    ensures forall d {:trigger CommissionOf(d)} | d in records && SitsInCommission(d) :: m[CommissionOf(d)].uid.Some?
    ensures var r := DeputiesRun(records, old(UidTable(m)), old(manager.db.next));
      manager.db.log == old(manager.db.log) + r.log && UidTable(m) == r.uids
  {
    ghost var u0, log0, next0 := UidTable(m), manager.db.log, manager.db.next;
    for i := 0 to |records|
      invariant manager.db.Valid()
      invariant forall d {:trigger CommissionOf(d)} | d in records[..i] && SitsInCommission(d) :: CommissionOf(d) in u0
      invariant var r := DeputiesRun(records[..i], u0, next0);
        manager.db.log == log0 + r.log && UidTable(m) == r.uids
    {
      StoreNextDeputy(manager, records, i, m, u0, log0, next0);
    }
    assert records[..|records|] == records;
    DeputiesRunCounted(records, u0, log0, next0);
  }

  /** The body of the loop over the deputies: the run goes one record further. */
  method StoreNextDeputy(manager: Manager, records: seq<DeputyRecord>, i: nat, m: map<string, Commission>,
                         ghost u0: map<string, Option<string>>, ghost log0: seq<Dict>, ghost next0: nat)
    requires i < |records| && manager.db.Valid() && next0 == |log0|
    requires forall k | k in m :: m[k].name == k
    requires forall d {:trigger CommissionOf(d)} | d in records && SitsInCommission(d) :: CommissionOf(d) in m
    requires u0.Keys == m.Keys
    requires forall d {:trigger CommissionOf(d)} | d in records[..i] && SitsInCommission(d) :: CommissionOf(d) in u0
    requires var r := DeputiesRun(records[..i], u0, next0);
      manager.db.log == log0 + r.log && UidTable(m) == r.uids
    modifies manager.db, m.Values
    ensures manager.db.Valid()
    ensures forall d {:trigger CommissionOf(d)} | d in records[..i + 1] && SitsInCommission(d) :: CommissionOf(d) in u0
    ensures var r := DeputiesRun(records[..i + 1], u0, next0);
      manager.db.log == log0 + r.log && UidTable(m) == r.uids
  {
    ghost var prev := DeputiesRun(records[..i], u0, next0);
    DeputiesRunSnoc(records, i, u0, next0);
    assert manager.db.next == prev.next;
    ghost var log := manager.db.log;
    StoreDeputyRecord(manager, records[i], m);
    ghost var muts := DeputyMutations(records[i], prev.uids, prev.next);
    assert manager.db.log == log + muts;
    AppendAssoc(log0, prev.log, muts);
  }

  lemma AppendAssoc(a: seq<Dict>, b: seq<Dict>, c: seq<Dict>)
    ensures a + (b + c) == (a + b) + c
  {
  }

  /**
   * `create_law_in_commission` as `main` calls it: the law is sent with the dictionary
   * of the commission, as it stands, as `developed_by`.
   */
  method StoreLaw(manager: Manager, m: map<string, Commission>, key: string, title: string, lawType: string,
                  url: string, createdAt: string)
    requires manager.db.Valid() && key in m && Counted(UidTable(m), manager.db.log)
    modifies manager.db
    ensures manager.db.Valid() && Counted(UidTable(m), manager.db.log)
    ensures manager.db.log == old(manager.db.log)
      + [LawDict(title, lawType, Some(url), createdAt, Some(CommissionDict(m[key].name, m[key].uid)), None)]
  {
    ghost var log := manager.db.log;
    var law := manager.CreateLawInCommission(m[key], title, lawType, Some(url), createdAt);
    CountedOther(UidTable(m), log, manager.db.log[|log|]);
    assert manager.db.log == log + [manager.db.log[|log|]];
  }

  /**
   * Files a law under the commission that the name `commission` canonicalises to,
   * as the three law loops of `main` do.
   */
  method FileLaw(manager: Manager, m: map<string, Commission>, commission: string, title: string,
                 lawType: string, url: string, createdAt: string)
    requires manager.db.Valid() && ProcessCommission(commission) in m && Counted(UidTable(m), manager.db.log)
    modifies manager.db
    ensures manager.db.Valid() && Counted(UidTable(m), manager.db.log)
    ensures var c := m[ProcessCommission(commission)];
      manager.db.log == old(manager.db.log)
        + [LawDict(title, lawType, Some(url), createdAt, Some(CommissionDict(c.name, c.uid)), None)]
  {
    var key := ProcessCommission(commission);
    StoreLaw(manager, m, key, title, lawType, url, createdAt);
  }

  /** FileLaw as the law loops see it: the log only grows, and the creation count is kept. */
  method AppendLaw(manager: Manager, m: map<string, Commission>, commission: string, title: string,
                   lawType: string, url: string, createdAt: string, ghost log0: seq<Dict>)
    requires manager.db.Valid() && ProcessCommission(commission) in m && Counted(UidTable(m), manager.db.log)
    requires log0 <= manager.db.log
    modifies manager.db
    ensures manager.db.Valid() && Counted(UidTable(m), manager.db.log)
    ensures log0 <= manager.db.log
  {
    FileLaw(manager, m, commission, title, lawType, url, createdAt);
  }

  /** The loop of `main` over the `projets_de_loi`: each is filed under its first reading's commission. */
  method StoreProjets(manager: Manager, bills: seq<Bill>, m: map<string, Commission>, createdAt: string)
    returns (error: Option<LoadError>)
    requires manager.db.Valid() && Counted(UidTable(m), manager.db.log)
    requires forall b {:trigger ProcessCommission(b.readings[0].commission.value)} | b in bills && |b.readings| > 0 && b.readings[0].commission.Some? ::
      ProcessCommission(b.readings[0].commission.value) in m
    modifies manager.db
    ensures manager.db.Valid() && Counted(UidTable(m), manager.db.log)
    ensures old(manager.db.log) <= manager.db.log
    ensures error == FirstProjetError(bills)
  {
    ghost var log0 := manager.db.log;
    for i := 0 to |bills|
      invariant manager.db.Valid() && Counted(UidTable(m), manager.db.log)
      invariant log0 <= manager.db.log
      invariant forall j | 0 <= j < i :: ProjetError(bills[j]).None?
    {
      var b := bills[i];
      if |b.readings| == 0 {
        FirstProjetErrorAt(bills, i);
        return Some(IndexError);
      }
      var r := b.readings[0];
      if r.commission.None? {
        FirstProjetErrorAt(bills, i);
        return Some(KeyError);
      }
      AppendLaw(manager, m, r.commission.value, b.title, "projets_de_loi", b.url, createdAt, log0);
    }
    FirstProjetErrorNone(bills);
    error := None;
  }

  /** The loop of `main` over the `propositions_de_loi`: those without a commission are skipped. */
  method StorePropositions(manager: Manager, bills: seq<Bill>, m: map<string, Commission>, createdAt: string)
    requires manager.db.Valid() && Counted(UidTable(m), manager.db.log)
    requires forall b {:trigger ProcessCommission(b.readings[0].commission.value)} | b in bills && |b.readings| > 0 && b.readings[0].commission.Some? ::
      ProcessCommission(b.readings[0].commission.value) in m
    modifies manager.db
    ensures manager.db.Valid() && Counted(UidTable(m), manager.db.log)
    ensures old(manager.db.log) <= manager.db.log
  {
    ghost var log0 := manager.db.log;
    for i := 0 to |bills|
      invariant manager.db.Valid() && Counted(UidTable(m), manager.db.log)
      invariant log0 <= manager.db.log
    {
      var b := bills[i];
      if |b.readings| > 0 {
        var r := b.readings[0];
        if r.commission.Some? {
          AppendLaw(manager, m, r.commission.value, b.title, "propositions_de_loi", b.url, createdAt, log0);
        }
      }
    }
  }

  /** The loop of `main` over the `textes_de_loi`: each is filed under its own commission. */
  method StoreTexts(manager: Manager, texts: seq<LawText>, m: map<string, Commission>, createdAt: string)
    returns (error: Option<LoadError>)
    requires manager.db.Valid() && Counted(UidTable(m), manager.db.log)
    requires forall t {:trigger ProcessCommission(t.commission.value)} | t in texts && t.commission.Some? :: ProcessCommission(t.commission.value) in m
    modifies manager.db
    ensures manager.db.Valid() && Counted(UidTable(m), manager.db.log)
    ensures old(manager.db.log) <= manager.db.log
    ensures error == if exists t | t in texts :: t.commission.None? then Some(KeyError) else None
  {
    ghost var log0 := manager.db.log;
    for i := 0 to |texts|
      invariant manager.db.Valid() && Counted(UidTable(m), manager.db.log)
      invariant log0 <= manager.db.log
      invariant forall j | 0 <= j < i :: texts[j].commission.Some?
    {
      var t := texts[i];
      if t.commission.None? {
        return Some(KeyError);
      }
      AppendLaw(manager, m, t.commission.value, t.title, "textes_de_loi", t.url, createdAt, log0);
    }
    error := None;
  }

  /** Every commission a deputy of 2016-2021 names is among those extracted from the deputies. */
  lemma DeputyCommissionsOfTerm(parliament: Parliament)
    ensures forall d {:trigger CommissionOf(d)} | d in parliament.term2016 && SitsInCommission(d) ::
      CommissionOf(d) in DeputyCommissions(parliament.Terms())
  {
    var terms := parliament.Terms();
    forall d | d in parliament.term2016 && SitsInCommission(d)
      ensures CommissionOf(d) in DeputyCommissions(terms)
    {
      assert parliament.term2016 in terms;
    }
  }

  /** Every commission the law loops of `main` look up is among those extracted from the laws. */
  lemma LawCommissionsOfRecords(laws: LawsExport)
    ensures forall b {:trigger ProcessCommission(b.readings[0].commission.value)} | b in laws.projets && |b.readings| > 0 && b.readings[0].commission.Some? ::
      ProcessCommission(b.readings[0].commission.value) in LawCommissions(laws)
    ensures forall b {:trigger ProcessCommission(b.readings[0].commission.value)} | b in laws.propositions && |b.readings| > 0 && b.readings[0].commission.Some? ::
      ProcessCommission(b.readings[0].commission.value) in LawCommissions(laws)
    ensures forall t {:trigger ProcessCommission(t.commission.value)} | t in laws.textes && t.commission.Some? ::
      ProcessCommission(t.commission.value) in LawCommissions(laws)
  {
    forall b | b in laws.projets && |b.readings| > 0 && b.readings[0].commission.Some?
      ensures ProcessCommission(b.readings[0].commission.value) in ReadingCommissions(laws.projets)
    {
      assert b.readings[0] in b.readings;
    }
    forall b | b in laws.propositions && |b.readings| > 0 && b.readings[0].commission.Some?
      ensures ProcessCommission(b.readings[0].commission.value) in ReadingCommissions(laws.propositions)
    {
      assert b.readings[0] in b.readings;
    }
  }

  /**
   * The stores of `main`, once the tables are built: the deputies of 2016-2021, then the
   * laws, until a record of the laws raises.
   */
  method StoreRecords(manager: Manager, deputies: seq<DeputyRecord>, laws: LawsExport,
                      commissions: map<string, Commission>, createdAt: string)
    returns (outcome: Outcome)
    requires manager.db.Valid() && Counted(UidTable(commissions), manager.db.log)
    requires forall k | k in commissions :: commissions[k].name == k
    requires forall d {:trigger CommissionOf(d)} | d in deputies && SitsInCommission(d) :: CommissionOf(d) in commissions
    requires forall b {:trigger ProcessCommission(b.readings[0].commission.value)} | b in laws.projets && |b.readings| > 0 && b.readings[0].commission.Some? ::
      ProcessCommission(b.readings[0].commission.value) in commissions
    requires forall b {:trigger ProcessCommission(b.readings[0].commission.value)} | b in laws.propositions && |b.readings| > 0 && b.readings[0].commission.Some? ::
      ProcessCommission(b.readings[0].commission.value) in commissions
    requires forall t {:trigger ProcessCommission(t.commission.value)} | t in laws.textes && t.commission.Some? :: ProcessCommission(t.commission.value) in commissions
    modifies manager.db, commissions.Values
    ensures outcome == ExpectedOutcome(laws)
    ensures manager.db.Valid() && Counted(UidTable(commissions), manager.db.log)
    ensures forall d {:trigger CommissionOf(d)} | d in deputies && SitsInCommission(d) :: commissions[CommissionOf(d)].uid.Some?
    ensures old(manager.db.log) + DeputiesRun(deputies, old(UidTable(commissions)), old(manager.db.next)).log
      <= manager.db.log
  {
    StoreDeputies(manager, deputies, commissions);
    var error := StoreProjets(manager, laws.projets, commissions, createdAt);
    if error.Some? {
      return Aborted(error.value);
    }
    StorePropositions(manager, laws.propositions, commissions, createdAt);
    error := StoreTexts(manager, laws.textes, commissions, createdAt);
    if error.Some? {
      return Aborted(error.value);
    }
    outcome := Done;
  }

  /**
   * `main`: an empty database; one commission per name extracted from the deputies
   * and the laws, one ministry per name extracted from the questions; the deputies of
   * 2016-2021, then the laws, stored, until a record of the laws raises.
   */
  method Load(parliament: Parliament, laws: LawsExport, questions: seq<seq<Question>>, createdAt: string)
    returns (outcome: Outcome, db: Database, commissions: map<string, Commission>,
             ministries: map<string, Ministry>)
    ensures commissions.Keys == DeputyCommissions(parliament.Terms()) + LawCommissions(laws)
    ensures forall k | k in commissions :: commissions[k].name == k
    ensures ministries.Keys == QuestionMinistries(questions)
    ensures forall k | k in ministries :: ministries[k].name == k && ministries[k].uid == None
    ensures outcome == ExpectedOutcome(laws)
    ensures db.Valid() && Counted(UidTable(commissions), db.log)
    ensures forall d {:trigger CommissionOf(d)} | d in parliament.term2016 && SitsInCommission(d) ::
      CommissionOf(d) in commissions && commissions[CommissionOf(d)].uid.Some?
    ensures DeputiesRun(parliament.term2016, Unassigned(commissions.Keys), 0).log <= db.log
  {
    db := new Database();
    var manager := new Manager(db);
    commissions, ministries := BuildTables(parliament, laws, questions);
    DeputyCommissionsOfTerm(parliament);
    LawCommissionsOfRecords(laws);
    ghost var u := UidTable(commissions);
    UidTableUnassigned(commissions);
    outcome := StoreRecords(manager, parliament.term2016, laws, commissions, createdAt);
    ghost var run := DeputiesRun(parliament.term2016, u, 0);
    assert [] + run.log == run.log;
  }

  /** The table of commissions none of which has a uid. */
  lemma UidTableUnassigned(m: map<string, Commission>)
    requires forall k | k in m :: m[k].uid == None
    ensures UidTable(m) == Unassigned(m.Keys)
  {
  }

  /**
   * The tables of `main`: one new commission per name extracted from the deputies
   * and the laws, one new ministry per name extracted from the questions.
   */
  method BuildTables(parliament: Parliament, laws: LawsExport, questions: seq<seq<Question>>)
    returns (commissions: map<string, Commission>, ministries: map<string, Ministry>)
    ensures commissions.Keys == DeputyCommissions(parliament.Terms()) + LawCommissions(laws)
    ensures forall k | k in commissions :: fresh(commissions[k]) && commissions[k].name == k && commissions[k].uid == None
    ensures ministries.Keys == QuestionMinistries(questions)
    ensures forall k | k in ministries :: fresh(ministries[k]) && ministries[k].name == k && ministries[k].uid == None
  {
    var fromDeputies := ExtractCommissionsFromDeputies(parliament);
    var fromLaws := ExtractCommissionsFromLaws(laws);
    commissions := BuildCommissions(fromDeputies + fromLaws);
    var ministryNames := ExtractMinistryFromQuestions(questions);
    ministries := BuildMinistries(ministryNames);
  }

  /** The uid table of commissions none of which is stored yet. */
  ghost function Unassigned(names: set<string>): map<string, Option<string>> {
    map k | k in names :: None
  }
}
