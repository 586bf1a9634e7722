/**
 The revisioned store (packages/application/src/ports.ts and
 packages/storage/src/workspace-store.ts).

 `Transact` is the specification of one transaction on values; the class
 `WorkspaceStore` runs it in place. The rest of the module is what holds of
 every sequence of transactions, whatever the commands are: revisions only
 grow, a revision determines the record (no ABA), and the event log accounts
 for every revision.
 */
module Store {
  import opened Domain

  datatype Mutation =
    | Insert(entity: Entity)
    | Update(entity: Entity, expected: nat)

  /** An `EventToAppend` without its kind, payload and timestamp. */
  datatype Event = Event(aggregate: EntityId, revision: nat, actor: Actor)

  datatype Request = Request(mutations: seq<Mutation>, events: seq<Event>)

  type Rows = map<EntityId, Entity>

  /** A row of the `idempotency_commands` table: the digest of the command and what it returned. */
  datatype Receipt = Receipt(command: nat, result: seq<Entity>)

  /** `receipts` is the `idempotency_commands` table by key. */
  datatype Db = Db(rows: Rows, log: seq<Event>, receipts: map<nat, Receipt>)

  const EMPTY := Db(map[], [], map[])

  /** A replay hands out the result of the commit that its key had. */
  datatype Reply = Committed | Replayed(result: seq<Entity>) | Refused(code: Code)

  /** What a commit returns, taken to be the records it writes, in order. */
  function Written(ms: seq<Mutation>): seq<Entity> {
    seq(|ms|, i requires 0 <= i < |ms| => ms[i].entity)
  }

  predicate SameKind(a: Entity, b: Entity) { KindOf(a) == KindOf(b) }

  function ApplyOne(rows: Rows, m: Mutation): Outcome<Rows> {
    match m
    case Insert(e) =>
      :- Require(e.id !in rows, DuplicateIdentity);
      Ok(rows[e.id := e])
    case Update(e, expected) =>
      :- Require(e.revision == expected + 1, RevisionConflict);
      :- Require(e.id in rows && SameKind(rows[e.id], e) && rows[e.id].revision == expected, RevisionConflict);
      Ok(rows[e.id := e])
  }

  function ApplyAll(rows: Rows, ms: seq<Mutation>): Outcome<Rows> {
    if ms == [] then Ok(rows)
    else
      var before :- ApplyAll(rows, ms[..|ms| - 1]);
      ApplyOne(before, ms[|ms| - 1])
  }

  /** One transaction: idempotency check, every mutation or none, then the events. */
  function Transact(db: Db, key: nat, command: nat, request: Request): (Db, Reply) {
    if |request.mutations| == 0 || |request.events| != |request.mutations| then
      (db, Refused(InvalidRequest))
    else if key in db.receipts then
      (db, if db.receipts[key].command == command then Replayed(db.receipts[key].result)
           else Refused(DuplicateIdentity))
    else
      match ApplyAll(db.rows, request.mutations)
      case Err(code) => (db, Refused(code))
      case Ok(rows) =>
        (Db(rows, db.log + request.events, db.receipts[key := Receipt(command, Written(request.mutations))]), Committed)
  }

  class WorkspaceStore {
    var rows: Rows
    var log: seq<Event>
    var receipts: map<nat, Receipt>

    function State(): Db
      reads this
    {
      Db(rows, log, receipts)
    }

    constructor ()
      ensures State() == EMPTY
    {
      rows, log, receipts := map[], [], map[];
    }

    method Get(kind: Kind, id: EntityId) returns (r: Outcome<Entity>)
      ensures r == Fetch(rows, kind, id)
    {
      if id in rows && KindOf(rows[id]) == kind {
        r := Ok(rows[id]);
      } else {
        r := Err(EntityNotFound);
      }
    }

    /** The transaction builds its table aside and installs it only at the end. */
    method Commit(key: nat, command: nat, request: Request) returns (reply: Reply)
      modifies this
      ensures (State(), reply) == Transact(old(State()), key, command, request)
    {
      if |request.mutations| == 0 || |request.events| != |request.mutations| {
        return Refused(InvalidRequest);
      }
      if key in receipts {
        return if receipts[key].command == command then Replayed(receipts[key].result)
               else Refused(DuplicateIdentity);
      }
      var pending := rows;
      for i := 0 to |request.mutations|
        invariant State() == old(State())
        invariant ApplyAll(rows, request.mutations[..i]) == Ok(pending)
      {
        assert request.mutations[..i + 1][..i] == request.mutations[..i];
        var next := ApplyOne(pending, request.mutations[i]);
        if next.Err? {
          RefusedPrefix(rows, request.mutations, i + 1);
          return Refused(next.code);
        }
        pending := next.value;
      }
      assert request.mutations[..|request.mutations|] == request.mutations;
      rows := pending;
      var written := 0;
      while written < |request.events|
        invariant 0 <= written <= |request.events|
        invariant log == old(log) + request.events[..written]
        invariant rows == pending && receipts == old(receipts)
      {
        log := log + [request.events[written]];
        written := written + 1;
      }
      assert request.events[..written] == request.events;
      receipts := receipts[key := Receipt(command, Written(request.mutations))];
      return Committed;
    }
  }

  /** `WorkspaceRepository.get` */
  function Fetch(rows: Rows, kind: Kind, id: EntityId): Outcome<Entity> {
    if id in rows && KindOf(rows[id]) == kind then Ok(rows[id]) else Err(EntityNotFound)
  }

  /** A transaction that fails at one mutation fails as a whole, with that error. */
  lemma {:induction false} RefusedPrefix(rows: Rows, ms: seq<Mutation>, n: nat)
    requires n <= |ms| && ApplyAll(rows, ms[..n]).Err?
    ensures ApplyAll(rows, ms) == ApplyAll(rows, ms[..n])
    decreases |ms| - n
  {
    if n == |ms| {
      assert ms[..n] == ms;
    } else {
      assert ms[..n + 1][..n] == ms[..n];
      RefusedPrefix(rows, ms, n + 1);
    }
  }

  // ---------- what one transaction does to the rows ----------

  /** Every row of `a` is still in `b`, in the same table, unchanged or at a later revision. */
  ghost predicate Behind(a: Rows, b: Rows) {
    forall id :: id in a ==>
      id in b && SameKind(a[id], b[id]) && a[id].revision <= b[id].revision
      && (a[id].revision == b[id].revision ==> a[id] == b[id])
  }

  ghost predicate Keyed(rows: Rows) {
    forall id :: id in rows ==> rows[id].id == id && rows[id].revision >= 1
  }

  lemma {:induction false} ApplyAllBehind(rows: Rows, ms: seq<Mutation>)
    requires ApplyAll(rows, ms).Ok?
    ensures Behind(rows, ApplyAll(rows, ms).value)
  {
    if ms != [] {
      ApplyAllBehind(rows, ms[..|ms| - 1]);
    }
  }

  lemma CommitBehind(db: Db, key: nat, command: nat, request: Request)
    ensures Behind(db.rows, Transact(db, key, command, request).0.rows)
    ensures db.log <= Transact(db, key, command, request).0.log
  {
    if ApplyAll(db.rows, request.mutations).Ok? {
      ApplyAllBehind(db.rows, request.mutations);
    }
  }

  /**
   What every command promises about its request: it updates rows it has read, each
   at most once and at the revision it read, inserts at revision 1, and has one event
   for each mutation.
   */
  ghost predicate Submittable(view: Rows, request: Request) {
    && |request.events| == |request.mutations| > 0
    && (forall m :: m in request.mutations ==> FromView(view, m))
    && UpdatesDistinct(request.mutations)
  }

  /** Each event names the record and the revision that its mutation writes. */
  ghost predicate Truthful(request: Request) {
    && |request.events| == |request.mutations|
    && forall i :: 0 <= i < |request.mutations| ==>
         && request.events[i].aggregate == request.mutations[i].entity.id
         && request.events[i].revision == request.mutations[i].entity.revision
  }

  ghost predicate WellFormed(view: Rows, request: Request) { Submittable(view, request) && Truthful(request) }

  ghost predicate FromView(view: Rows, m: Mutation) {
    match m
    case Insert(e) => e.revision == 1
    case Update(e, expected) =>
      e.id in view && SameKind(view[e.id], e) && view[e.id].revision == expected && e.revision == expected + 1
  }

  ghost predicate UpdatesDistinct(ms: seq<Mutation>) {
    forall i, j :: 0 <= i < j < |ms| && ms[i].Update? && ms[j].Update? ==> ms[i].entity.id != ms[j].entity.id
  }

  ghost function Touched(ms: seq<Mutation>): set<EntityId> {
    set m | m in ms :: m.entity.id
  }

  /**
   The outcome of a committed request: the rows it updated were, at commit time,
   exactly the rows it had read; what it inserted was new; it wrote what it asked
   for and left every other row alone.
   */
  ghost predicate Effect(view: Rows, ms: seq<Mutation>, before: Rows, after: Rows) {
    && (forall m :: m in ms ==>
         && m.entity.id in after && after[m.entity.id] == m.entity
         && (m.Insert? ==> m.entity.id !in before)
         && (m.Update? ==> m.entity.id in view && m.entity.id in before && before[m.entity.id] == view[m.entity.id]))
    && after.Keys == before.Keys + Touched(ms)
    && (forall id :: id in before && id !in Touched(ms) ==> after[id] == before[id])
  }

  /** No mutation of a request that succeeds writes a row that an earlier one wrote. */
  lemma LastIsNew(view: Rows, init: seq<Mutation>, last: Mutation, before: Rows, middle: Rows)
    requires Behind(view, before) && Effect(view, init, before, middle)
    requires FromView(view, last) && UpdatesDistinct(init + [last])
    requires ApplyOne(middle, last).Ok?
    ensures last.entity.id !in Touched(init)
  {
    forall m | m in init
      ensures m.entity.id != last.entity.id
    {
      if m.Update? && last.Update? {
        var i :| 0 <= i < |init| && init[i] == m;
        assert (init + [last])[i] == m && (init + [last])[|init|] == last;
      }
    }
  }

  lemma EffectExtends(view: Rows, init: seq<Mutation>, last: Mutation, before: Rows, middle: Rows)
    requires Behind(view, before) && Effect(view, init, before, middle)
    requires FromView(view, last) && last.entity.id !in Touched(init)
    requires ApplyOne(middle, last).Ok?
    ensures Effect(view, init + [last], before, ApplyOne(middle, last).value)
  {
    var id := last.entity.id;
    assert Touched(init + [last]) == Touched(init) + {id};
    assert id in before <==> id in middle;
    assert id in before ==> middle[id] == before[id];
    forall m | m in init
      ensures m.entity.id in Touched(init)
    {
    }
  }

  /**
   Optimistic concurrency: a request built from stale reads commits only if its reads of
   what it updates are current.
   */
  lemma {:induction false} ApplyAllEffect(view: Rows, ms: seq<Mutation>, before: Rows)
    requires Behind(view, before)
    requires forall m :: m in ms ==> FromView(view, m)
    requires UpdatesDistinct(ms)
    requires ApplyAll(before, ms).Ok?
    ensures Effect(view, ms, before, ApplyAll(before, ms).value)
    ensures IdsDistinct(ms)
  {
    if ms != [] {
      var n := |ms| - 1;
      assert ms == ms[..n] + [ms[n]];
      ApplyAllEffect(view, ms[..n], before);
      var middle := ApplyAll(before, ms[..n]).value;
      LastIsNew(view, ms[..n], ms[n], before, middle);
      EffectExtends(view, ms[..n], ms[n], before, middle);
      forall i, j | 0 <= i < j < |ms|
        ensures ms[i].entity.id != ms[j].entity.id
      {
        assert ms[..n][i] == ms[i];
        assert ms[..n][i].entity.id in Touched(ms[..n]);
        assert j < n ==> ms[..n][j] == ms[j];
      }
    }
  }

  ghost predicate IdsDistinct(ms: seq<Mutation>) {
    forall i, j :: 0 <= i < j < |ms| ==> ms[i].entity.id != ms[j].entity.id
  }

  lemma CommitEffect(view: Rows, db: Db, key: nat, command: nat, request: Request)
    requires Behind(view, db.rows) && Submittable(view, request)
    requires Transact(db, key, command, request).1 == Committed
    ensures Effect(view, request.mutations, db.rows, Transact(db, key, command, request).0.rows)
    ensures Transact(db, key, command, request).0.log == db.log + request.events
    ensures IdsDistinct(request.mutations)
  {
    ApplyAllEffect(view, request.mutations, db.rows);
  }

  /** A well-formed request on current rows, with unused identities for what it inserts. */
  ghost predicate Applicable(rows: Rows, ms: seq<Mutation>) {
    && IdsDistinct(ms)
    && forall m :: m in ms ==> FromView(rows, m) && (m.Insert? ==> m.entity.id !in rows)
  }

  lemma {:induction false} ApplicableApplies(rows: Rows, ms: seq<Mutation>)
    requires Applicable(rows, ms)
    ensures ApplyAll(rows, ms).Ok?
    ensures Effect(rows, ms, rows, ApplyAll(rows, ms).value)
  {
    if ms != [] {
      var n := |ms| - 1;
      assert ms == ms[..n] + [ms[n]];
      ApplicableApplies(rows, ms[..n]);
      var middle, last := ApplyAll(rows, ms[..n]).value, ms[n];
      assert last.entity.id !in Touched(ms[..n]);
      assert last.entity.id in rows ==> middle[last.entity.id] == rows[last.entity.id];
      assert FromView(rows, last) && ApplyOne(middle, last).Ok?;
      EffectExtends(rows, ms[..n], last, rows, middle);
    }
  }

  /** Commands one at a time, with fresh keys and identities, are never refused by the store. */
  lemma CurrentRequestCommits(db: Db, key: nat, command: nat, request: Request)
    requires Applicable(db.rows, request.mutations) && |request.events| == |request.mutations| > 0
             && key !in db.receipts
    ensures Transact(db, key, command, request).1 == Committed
    ensures Effect(db.rows, request.mutations, db.rows, Transact(db, key, command, request).0.rows)
  {
    ApplicableApplies(db.rows, request.mutations);
  }

  // ---------- sequences of transactions ----------

  /** The states of a store, each reached from the one before by some transaction. */
  ghost predicate History(states: seq<Db>) {
    && |states| > 0
    && states[0] == EMPTY
    && forall i :: 0 <= i < |states| - 1 ==> Transacted(states[i], states[i + 1])
  }

  ghost predicate Transacted(before: Db, after: Db) {
    exists key, command, request :: after == Transact(before, key, command, request).0
  }

  lemma BehindTransitive(a: Rows, b: Rows, c: Rows)
    requires Behind(a, b) && Behind(b, c)
    ensures Behind(a, c)
  {
  }

  lemma {:induction false} HistoryBehind(states: seq<Db>, i: nat, j: nat)
    requires History(states) && i <= j < |states|
    ensures Behind(states[i].rows, states[j].rows)
    ensures states[i].log <= states[j].log
    decreases j
  {
    if i < j {
      HistoryBehind(states, i, j - 1);
      NextBehind(states, j - 1);
      BehindTransitive(states[i].rows, states[j - 1].rows, states[j].rows);
    }
  }

  lemma NextBehind(states: seq<Db>, j: nat)
    requires History(states) && j + 1 < |states|
    ensures Behind(states[j].rows, states[j + 1].rows) && states[j].log <= states[j + 1].log
  {
    assert Transacted(states[j], states[j + 1]);
    TransactedBehind(states[j], states[j + 1]);
  }

  lemma TransactedBehind(before: Db, after: Db)
    requires Transacted(before, after)
    ensures Behind(before.rows, after.rows) && before.log <= after.log
  {
    var key, command, request :| after == Transact(before, key, command, request).0;
    CommitBehind(before, key, command, request);
  }

  /** No ABA: anywhere in a history, an identity and a revision determine the whole record. */
  lemma RevisionDeterminesRecord(states: seq<Db>, i: nat, j: nat, id: EntityId)
    requires History(states) && i < |states| && j < |states|
    requires id in states[i].rows && id in states[j].rows
    requires states[i].rows[id].revision == states[j].rows[id].revision
    ensures states[i].rows[id] == states[j].rows[id]
  {
    if i <= j {
      HistoryBehind(states, i, j);
    } else {
      HistoryBehind(states, j, i);
    }
  }

  /** A snapshot whose rows were each read at some moment of the history, possibly a different one. */
  ghost predicate StaleView(states: seq<Db>, view: Rows) {
    forall id :: id in view ==> exists t :: 0 <= t < |states| && SeenAt(states[t], view, id)
  }

  ghost predicate SeenAt(db: Db, view: Rows, id: EntityId)
    requires id in view
  {
    id in db.rows && db.rows[id] == view[id]
  }

  lemma StaleViewBehind(states: seq<Db>, view: Rows)
    requires History(states) && StaleView(states, view)
    ensures Behind(view, states[|states| - 1].rows)
  {
    forall id | id in view
      ensures var b := states[|states| - 1].rows;
        id in b && SameKind(view[id], b[id]) && view[id].revision <= b[id].revision
        && (view[id].revision == b[id].revision ==> view[id] == b[id])
    {
      var t :| 0 <= t < |states| && SeenAt(states[t], view, id);
      HistoryBehind(states, t, |states| - 1);
    }
  }

  /** Once a key has committed, no later submission under it changes the store. */
  lemma {:induction false} ReceiptsPersist(states: seq<Db>, i: nat, j: nat, key: nat, command: nat, request: Request)
    requires History(states) && i <= j < |states| && key in states[i].receipts
    ensures key in states[j].receipts && states[j].receipts[key] == states[i].receipts[key]
    ensures Transact(states[j], key, command, request).0 == states[j]
    ensures Transact(states[j], key, command, request).1 != Committed
    decreases j
  {
    if i < j {
      ReceiptsPersist(states, i, j - 1, key, command, request);
      assert Transacted(states[j - 1], states[j - 1 + 1]);
    }
  }

  // ---------- the event log accounts for all state ----------

  /** The revisions that the log reports for one identity, in order. */
  function Reported(log: seq<Event>, id: EntityId): seq<nat> {
    if log == [] then []
    else
      var last := log[|log| - 1];
      Reported(log[..|log| - 1], id) + (if last.aggregate == id then [last.revision] else [])
  }

  ghost predicate Counts(revisions: seq<nat>, n: nat) {
    |revisions| == n && forall k :: 0 <= k < n ==> revisions[k] == k + 1
  }

  function RevisionOf(rows: Rows, id: EntityId): nat {
    if id in rows then rows[id].revision else 0
  }

  /** The events of each identity carry revisions 1, 2, ..., n, with n the stored revision. */
  ghost predicate Accounted(rows: Rows, log: seq<Event>) {
    forall id :: Counts(Reported(log, id), RevisionOf(rows, id))
  }

  /** An event that reports a mutation. */
  ghost predicate Reports(e: Event, m: Mutation) {
    && e.aggregate == m.entity.id && e.revision == m.entity.revision
    && (m.Insert? ==> m.entity.revision == 1)
  }

  lemma ApplyOneAccounted(rows: Rows, log: seq<Event>, m: Mutation, e: Event)
    requires Accounted(rows, log) && Reports(e, m) && ApplyOne(rows, m).Ok?
    ensures Accounted(ApplyOne(rows, m).value, log + [e])
  {
    var after := ApplyOne(rows, m).value;
    assert (log + [e])[..|log|] == log;
    forall id
      ensures Counts(Reported(log + [e], id), RevisionOf(after, id))
    {
      assert Counts(Reported(log, id), RevisionOf(rows, id));
    }
  }

  lemma {:induction false} ApplyAllAccounted(rows: Rows, log: seq<Event>, ms: seq<Mutation>, es: seq<Event>)
    requires Accounted(rows, log) && |ms| == |es|
    requires forall i :: 0 <= i < |ms| ==> Reports(es[i], ms[i])
    requires ApplyAll(rows, ms).Ok?
    ensures Accounted(ApplyAll(rows, ms).value, log + es)
  {
    if ms == [] {
      assert log + es == log;
    } else {
      var n := |ms| - 1;
      ApplyAllAccounted(rows, log, ms[..n], es[..n]);
      ApplyOneAccounted(ApplyAll(rows, ms[..n]).value, log + es[..n], ms[n], es[n]);
      assert log + es == (log + es[..n]) + [es[n]];
    }
  }

  lemma CommitAccounted(view: Rows, db: Db, key: nat, command: nat, request: Request)
    requires Accounted(db.rows, db.log) && WellFormed(view, request)
    ensures Accounted(Transact(db, key, command, request).0.rows, Transact(db, key, command, request).0.log)
  {
    if Transact(db, key, command, request).1 == Committed {
      forall i | 0 <= i < |request.mutations|
        ensures Reports(request.events[i], request.mutations[i])
      {
        assert FromView(view, request.mutations[i]);
      }
      ApplyAllAccounted(db.rows, db.log, request.mutations, request.events);
    }
  }

  lemma CommitKeyed(view: Rows, db: Db, key: nat, command: nat, request: Request)
    requires Behind(view, db.rows) && Keyed(db.rows) && Submittable(view, request)
    ensures Keyed(Transact(db, key, command, request).0.rows)
  {
    if Transact(db, key, command, request).1 == Committed {
      CommitEffect(view, db, key, command, request);
    }
  }
}
