/** Idempotent submission: any number of clients race through look-up, insert and second look-up. */
module Submission {
  import opened Options
  import opened Sequences

  /** Requests with an empty key are refused before the service is called. */
  type Key = k: string | k != "" witness "k"

  type ClientId = nat
  type RowId = nat

  /** Where the submission of one client stands. */
  datatype Phase =
    | Looking
    | Inserting
    | Reselecting             // the insert hit the unique constraint
    | Done(id: RowId, created: bool)
    | Rejected                // 409

  datatype Client = Client(key: Option<Key>, phase: Phase)

  /** The stored idempotency key of each task row of one project, and the submissions seen so far. */
  datatype State = State(rows: map<RowId, Option<Key>>, clients: map<ClientId, Client>)

  predicate Stored(s: State, id: RowId, key: Option<Key>) {
    id in s.rows && s.rows[id] == key
  }

  /** The unique constraint: no second row with the same key; rows without a key never collide. */
  predicate Conflicts(s: State, key: Option<Key>) {
    key.Some? && exists id :: id in s.rows && s.rows[id] == key
  }

  function To(s: State, c: ClientId, p: Phase): State
    requires c in s.clients
  {
    s.(clients := s.clients[c := s.clients[c].(phase := p)])
  }

  ghost predicate Arrives(s: State, t: State, c: ClientId, key: Option<Key>) {
    c !in s.clients && t == s.(clients := s.clients[c := Client(key, if key.Some? then Looking else Inserting)])
  }

  ghost predicate LooksUp(s: State, t: State, c: ClientId) {
    && c in s.clients && s.clients[c].phase == Looking
    && ((exists id :: Stored(s, id, s.clients[c].key) && t == To(s, c, Done(id, false)))
        || (!Conflicts(s, s.clients[c].key) && t == To(s, c, Inserting)))
  }

  ghost predicate Inserts(s: State, t: State, c: ClientId, id: RowId) {
    && c in s.clients && s.clients[c].phase == Inserting
    && if Conflicts(s, s.clients[c].key) then t == To(s, c, Reselecting)
       else id !in s.rows && t == To(s, c, Done(id, true)).(rows := s.rows[id := s.clients[c].key])
  }

  ghost predicate Reselects(s: State, t: State, c: ClientId) {
    && c in s.clients && s.clients[c].phase == Reselecting
    && ((exists id :: Stored(s, id, s.clients[c].key) && t == To(s, c, Done(id, false)))
        || (!Conflicts(s, s.clients[c].key) && t == To(s, c, Rejected)))
  }

  ghost predicate Next(s: State, t: State) {
    || (exists c, key :: Arrives(s, t, c, key))
    || (exists c :: LooksUp(s, t, c))
    || (exists c, id :: Inserts(s, t, c, id))
    || (exists c :: Reselects(s, t, c))
  }

  /** State number `i` of a run: nothing stored and nobody there, or one step after the state before. */
  ghost predicate StepAt(b: seq<State>, i: nat)
    requires i < |b|
  {
    if i == 0 then b[0] == State(map[], map[]) else Next(b[i - 1], b[i])
  }

  ghost predicate IsRun(b: seq<State>) {
    |b| > 0 && forall i {:trigger StepAt(b, i)} :: 0 <= i < |b| ==> StepAt(b, i)
  }

  // The invariant.

  ghost predicate UniqueKeys(s: State) {
    forall i, j :: i in s.rows && j in s.rows && s.rows[i] == s.rows[j] && s.rows[i].Some? ==> i == j
  }

  ghost predicate ClientOk(s: State, c: ClientId) {
    c in s.clients ==>
      var x := s.clients[c];
      && (x.phase.Looking? ==> x.key.Some?)
      && (x.phase.Reselecting? ==> Conflicts(s, x.key))
      && (x.phase.Done? ==> Stored(s, x.phase.id, x.key))
      && (x.phase.Done? && !x.phase.created ==> x.key.Some?)
      && !x.phase.Rejected?
  }

  predicate CreatedIt(s: State, c: ClientId, id: RowId) {
    c in s.clients && s.clients[c].phase == Done(id, true)
  }

  /** Each row was created by one client, and by no other. */
  ghost predicate RowOk(s: State, id: RowId) {
    id in s.rows ==> exists c :: CreatedIt(s, c, id) && forall d :: CreatedIt(s, d, id) ==> d == c
  }

  ghost predicate Inv(s: State) {
    && UniqueKeys(s)
    && (forall c {:trigger ClientOk(s, c)} :: ClientOk(s, c))
    && (forall id {:trigger RowOk(s, id)} :: RowOk(s, id))
  }

  /** A step of a client that inserts nothing. */
  lemma PhaseKeepsInv(s: State, t: State, c: ClientId, p: Phase)
    requires Inv(s) && c in s.clients && !s.clients[c].phase.Done? && t == To(s, c, p)
    requires p.Done? ==> !p.created
    requires ClientOk(t, c)
    ensures Inv(t)
  {
    forall d ensures ClientOk(t, d) {
      assert ClientOk(s, d);
    }
    forall id ensures RowOk(t, id) {
      assert RowOk(s, id);
      if id in s.rows {
        var d :| CreatedIt(s, d, id) && forall e :: CreatedIt(s, e, id) ==> e == d;
        assert CreatedIt(t, d, id);
        forall e | CreatedIt(t, e, id) ensures e == d {
          assert CreatedIt(s, e, id);
        }
      }
    }
  }

  lemma ArrivalKeepsInv(s: State, t: State, c: ClientId, key: Option<Key>)
    requires Inv(s) && Arrives(s, t, c, key)
    ensures Inv(t)
  {
    forall d ensures ClientOk(t, d) {
      assert ClientOk(s, d);
    }
    forall id ensures RowOk(t, id) {
      assert RowOk(s, id);
      if id in s.rows {
        var d :| CreatedIt(s, d, id) && forall e :: CreatedIt(s, e, id) ==> e == d;
        assert CreatedIt(t, d, id);
        forall e | CreatedIt(t, e, id) ensures e == d {
          assert CreatedIt(s, e, id);
        }
      }
    }
  }

  lemma InsertKeepsInv(s: State, t: State, c: ClientId, id: RowId)
    requires Inv(s) && Inserts(s, t, c, id) && !Conflicts(s, s.clients[c].key)
    ensures Inv(t)
  {
    forall d ensures ClientOk(t, d) {
      assert ClientOk(s, d);
      if d in s.clients && Conflicts(s, s.clients[d].key) {
        var i :| i in s.rows && s.rows[i] == s.clients[d].key;
        assert i in t.rows && t.rows[i] == s.clients[d].key;
      }
    }
    forall i ensures RowOk(t, i) {
      assert RowOk(s, i);
      if i == id {
        assert CreatedIt(t, c, id);
        forall e | CreatedIt(t, e, id) ensures e == c {
          assert ClientOk(s, e);
        }
      } else if i in s.rows {
        var d :| CreatedIt(s, d, i) && forall e :: CreatedIt(s, e, i) ==> e == d;
        assert CreatedIt(t, d, i);
        forall e | CreatedIt(t, e, i) ensures e == d {
          assert CreatedIt(s, e, i);
        }
      }
    }
  }

  lemma StepKeepsInv(s: State, t: State)
    requires Inv(s) && Next(s, t)
    ensures Inv(t)
  {
    if c, key :| Arrives(s, t, c, key) {
      ArrivalKeepsInv(s, t, c, key);
    } else if c :| LooksUp(s, t, c) {
      assert ClientOk(s, c);
      PhaseKeepsInv(s, t, c, t.clients[c].phase);
    } else if c, id :| Inserts(s, t, c, id) {
      if Conflicts(s, s.clients[c].key) {
        PhaseKeepsInv(s, t, c, Reselecting);
      } else {
        InsertKeepsInv(s, t, c, id);
      }
    } else {
      var c :| Reselects(s, t, c);
      assert ClientOk(s, c);
      PhaseKeepsInv(s, t, c, t.clients[c].phase);
    }
  }

  lemma {:induction false} RunsKeepInv(b: seq<State>, k: nat)
    requires IsRun(b) && k < |b|
    ensures Inv(b[k])
  {
    assert StepAt(b, k);
    if k > 0 {
      RunsKeepInv(b, k - 1);
      StepKeepsInv(b[k - 1], b[k]);
    }
  }

  // What clients see.

  /** All submissions of one key that return, return the same task. */
  lemma SameKeySameTask(b: seq<State>, k: nat, c: ClientId, d: ClientId)
    requires IsRun(b) && k < |b| && c in b[k].clients && d in b[k].clients
    requires b[k].clients[c].phase.Done? && b[k].clients[d].phase.Done?
    requires b[k].clients[c].key == b[k].clients[d].key && b[k].clients[c].key.Some?
    ensures b[k].clients[c].phase.id == b[k].clients[d].phase.id
  {
    RunsKeepInv(b, k);
    assert ClientOk(b[k], c) && ClientOk(b[k], d);
  }

  predicate WasTold(s: State, c: ClientId, key: Key) {
    c in s.clients && s.clients[c].key == Some(key) && s.clients[c].phase.Done? && s.clients[c].phase.created
  }

  /** As soon as one submission of a key has returned, exactly one client was told that it created the task. */
  lemma ExactlyOneCreator(b: seq<State>, k: nat, key: Key)
    requires IsRun(b) && k < |b|
    requires exists c :: c in b[k].clients && b[k].clients[c].key == Some(key) && b[k].clients[c].phase.Done?
    ensures exists c :: WasTold(b[k], c, key) && forall d :: WasTold(b[k], d, key) ==> d == c
  {
    RunsKeepInv(b, k);
    var s := b[k];
    var c :| c in s.clients && s.clients[c].key == Some(key) && s.clients[c].phase.Done?;
    assert ClientOk(s, c);
    var id := s.clients[c].phase.id;
    assert RowOk(s, id);
    var m :| CreatedIt(s, m, id) && forall e :: CreatedIt(s, e, id) ==> e == m;
    assert ClientOk(s, m);
    forall d | WasTold(s, d, key) ensures d == m {
      assert ClientOk(s, d);
      assert CreatedIt(s, d, s.clients[d].phase.id);
    }
    assert WasTold(s, m, key);
  }

  /** At most one row per key. */
  lemma OneRowPerKey(b: seq<State>, k: nat, key: Key, i: RowId, j: RowId)
    requires IsRun(b) && k < |b| && Stored(b[k], i, Some(key)) && Stored(b[k], j, Some(key))
    ensures i == j
  {
    RunsKeepInv(b, k);
  }

  /** No submission is ever turned away, with a key or without: the 409 is unreachable. */
  lemma NobodyIsRejected(b: seq<State>, k: nat, c: ClientId)
    requires IsRun(b) && k < |b| && c in b[k].clients
    ensures b[k].clients[c].phase != Rejected
  {
    RunsKeepInv(b, k);
    assert ClientOk(b[k], c);
  }

  // Submissions come back.

  /** A step of the client itself. */
  ghost predicate OwnStep(s: State, t: State, c: ClientId) {
    LooksUp(s, t, c) || Reselects(s, t, c) || exists id :: Inserts(s, t, c, id)
  }

  /** How many steps the client has before it at most. */
  function StepsLeft(p: Phase): nat {
    match p
    case Looking => 3
    case Inserting => 2
    case Reselecting => 1
    case _ => 0
  }

  /** A client that has not returned can always take its next step: nothing it waits for is up to others. */
  lemma CanGoOn(s: State, c: ClientId) returns (t: State)
    requires Inv(s) && c in s.clients && !s.clients[c].phase.Done?
    ensures OwnStep(s, t, c) && Next(s, t)
  {
    assert ClientOk(s, c);
    var x := s.clients[c];
    if Conflicts(s, x.key) && !x.phase.Inserting? {
      var id :| id in s.rows && s.rows[id] == x.key;
      t := To(s, c, Done(id, false));
      assert Stored(s, id, x.key);
    } else if Conflicts(s, x.key) {
      t := To(s, c, Reselecting);
      assert Inserts(s, t, c, 0);
    } else if x.phase.Inserting? {
      var id := FreshNat(s.rows.Keys);
      t := To(s, c, Done(id, true)).(rows := s.rows[id := x.key]);
      assert Inserts(s, t, c, id);
    } else {
      t := To(s, c, Inserting);
    }
  }

  /** Each step of the client brings it closer to its return, and what others do leaves it where it is. */
  lemma StepsLeftFalls(s: State, t: State, c: ClientId)
    requires Inv(s) && Next(s, t) && c in s.clients
    ensures c in t.clients && t.clients[c].key == s.clients[c].key
    ensures OwnStep(s, t, c) ==> StepsLeft(t.clients[c].phase) < StepsLeft(s.clients[c].phase)
    ensures !OwnStep(s, t, c) ==> t.clients[c] == s.clients[c]
  {
    assert ClientOk(s, c);
    if d, id :| Inserts(s, t, d, id) {
      assert d == c ==> OwnStep(s, t, c);
    }
  }

  /** How many of the steps between two states of a run were steps of the client. */
  ghost function OwnSteps(b: seq<State>, c: ClientId, lo: nat, hi: nat): nat
    requires lo <= hi < |b|
    decreases hi
  {
    if lo == hi then 0
    else OwnSteps(b, c, lo, hi - 1) + if OwnStep(b[hi - 1], b[hi], c) then 1 else 0
  }

  lemma ClientAt(b: seq<State>, k: nat, c: ClientId)
    requires IsRun(b) && 0 < k < |b| && c in b[k - 1].clients
    ensures c in b[k].clients && b[k].clients[c].key == b[k - 1].clients[c].key
    ensures StepsLeft(b[k].clients[c].phase) + (if OwnStep(b[k - 1], b[k], c) then 1 else 0)
         <= StepsLeft(b[k - 1].clients[c].phase)
    ensures b[k - 1].clients[c].phase.Done? ==> b[k].clients[c] == b[k - 1].clients[c]
  {
    RunsKeepInv(b, k - 1);
    assert StepAt(b, k);
    StepsLeftFalls(b[k - 1], b[k], c);
  }

  lemma {:induction false} StepsAlong(b: seq<State>, c: ClientId, lo: nat, hi: nat)
    requires IsRun(b) && lo <= hi < |b| && c in b[lo].clients
    ensures c in b[hi].clients && b[hi].clients[c].key == b[lo].clients[c].key
    ensures StepsLeft(b[hi].clients[c].phase) + OwnSteps(b, c, lo, hi) <= StepsLeft(b[lo].clients[c].phase)
    ensures b[lo].clients[c].phase.Done? ==> b[hi].clients[c] == b[lo].clients[c]
    decreases hi
  {
    if lo < hi {
      StepsAlong(b, c, lo, hi - 1);
      ClientAt(b, hi, c);
    }
  }

  /**
   * Every submission returns: in any interleaving a client that has not returned can take its next step, and has
   * returned after three steps of its own at the latest.
   */
  lemma SubmissionReturns(b: seq<State>, c: ClientId, lo: nat, hi: nat)
    requires IsRun(b) && lo <= hi < |b| && c in b[lo].clients
    ensures c in b[hi].clients && OwnSteps(b, c, lo, hi) <= 3
    ensures OwnSteps(b, c, lo, hi) == 3 ==> b[hi].clients[c].phase.Done?
    ensures !b[hi].clients[c].phase.Done? ==> exists t :: Next(b[hi], t) && OwnStep(b[hi], t, c)
  {
    StepsAlong(b, c, lo, hi);
    RunsKeepInv(b, hi);
    assert ClientOk(b[hi], c);
    if !b[hi].clients[c].phase.Done? {
      var t := CanGoOn(b[hi], c);
    }
  }

  lemma {:induction false} RowsStay(b: seq<State>, lo: nat, hi: nat, id: RowId)
    requires IsRun(b) && lo <= hi < |b| && id in b[lo].rows
    ensures id in b[hi].rows && b[hi].rows[id] == b[lo].rows[id]
    decreases hi
  {
    if lo < hi {
      RowsStay(b, lo, hi - 1, id);
      assert StepAt(b, hi);
    }
  }

  lemma NotCreatedNow(s: State, t: State, c: ClientId, id: RowId)
    requires Next(s, t) && c in s.clients && id in s.rows && !CreatedIt(s, c, id)
    ensures !CreatedIt(t, c, id)
  {
  }

  /** Whoever created the row of a task was not told so while the row was there already. */
  lemma {:induction false} CreatedFirst(b: seq<State>, c: ClientId, lo: nat, hi: nat, id: RowId)
    requires IsRun(b) && lo <= hi < |b| && c in b[lo].clients && !b[lo].clients[c].phase.Done? && id in b[lo].rows
    ensures !CreatedIt(b[hi], c, id)
    decreases hi
  {
    if lo < hi {
      CreatedFirst(b, c, lo, hi - 1, id);
      RowsStay(b, lo, hi - 1, id);
      StepsAlong(b, c, lo, hi - 1);
      assert StepAt(b, hi);
      NotCreatedNow(b[hi - 1], b[hi], c, id);
    }
  }

  /**
   * If a task with its key is stored before a client has returned, the client gets that task and is told that it did
   * not create it, in every interleaving.
   */
  lemma LateClientGetsStoredTask(b: seq<State>, c: ClientId, lo: nat, hi: nat, id: RowId)
    requires IsRun(b) && lo <= hi < |b| && c in b[lo].clients && !b[lo].clients[c].phase.Done?
    requires b[lo].clients[c].key.Some? && Stored(b[lo], id, b[lo].clients[c].key)
    requires c in b[hi].clients && b[hi].clients[c].phase.Done?
    ensures b[hi].clients[c].phase == Done(id, false)
  {
    StepsAlong(b, c, lo, hi);
    RowsStay(b, lo, hi, id);
    CreatedFirst(b, c, lo, hi, id);
    RunsKeepInv(b, hi);
    assert ClientOk(b[hi], c);
  }

  /** A client alone: its own steps only. */
  ghost predicate OwnAt(d: seq<State>, c: ClientId, i: nat)
    requires 0 < i < |d|
  {
    OwnStep(d[i - 1], d[i], c)
  }

  ghost predicate Alone(d: seq<State>, c: ClientId) {
    |d| > 0 && forall i {:trigger OwnAt(d, c, i)} :: 0 < i < |d| ==> OwnAt(d, c, i)
  }

  lemma AloneOn(s: State, e: seq<State>, c: ClientId)
    requires Alone(e, c) && OwnStep(s, e[0], c)
    ensures Alone([s] + e, c)
  {
    var d := [s] + e;
    forall i | 0 < i < |d| ensures OwnAt(d, c, i) {
      assert i > 1 ==> OwnAt(e, c, i - 1) && d[i] == e[i - 1] && d[i - 1] == e[i - 2];
    }
  }

  /**
   * Left alone, a client returns as CreateTask does: with a new row exactly if none with its key was stored, and with
   * the stored row otherwise. One step is enough where the first query or the insert goes through, else it takes two.
   */
  lemma {:induction false} AloneReturns(s: State, c: ClientId) returns (d: seq<State>)
    requires Inv(s) && c in s.clients && !s.clients[c].phase.Done?
    ensures Alone(d, c) && d[0] == s
    ensures |d| == if Conflicts(s, s.clients[c].key) == s.clients[c].phase.Inserting? then 3 else 2
    ensures var z := d[|d| - 1];
      && c in z.clients && z.clients[c].phase.Done? && z.clients[c].key == s.clients[c].key
      && var id, created := z.clients[c].phase.id, z.clients[c].phase.created;
         && (created <==> !Conflicts(s, s.clients[c].key))
         && (if created then id !in s.rows && z.rows == s.rows[id := s.clients[c].key]
             else Stored(s, id, s.clients[c].key) && z.rows == s.rows)
    decreases StepsLeft(s.clients[c].phase)
  {
    assert ClientOk(s, c);
    var t := CanGoOn(s, c);
    StepKeepsInv(s, t);
    StepsLeftFalls(s, t, c);
    if t.clients[c].phase.Done? {
      d := [s, t];
      assert OwnAt(d, c, 1);
    } else {
      assert ClientOk(t, c);
      var e := AloneReturns(t, c);
      d := [s] + e;
      AloneOn(s, e, c);
    }
  }

  // The service, one call at a time.

  class SubmissionTable {
    var rows: map<RowId, Option<Key>>

    ghost predicate Valid()
      reads this
    {
      UniqueKeys(State(rows, map[]))
    }

    method Select(key: Option<Key>) returns (id: Option<RowId>)
      ensures id.Some? ==> id.value in rows && rows[id.value] == key
      ensures id.None? ==> forall i :: i in rows ==> rows[i] != key
    {
      if i :| i in rows && rows[i] == key {
        return Some(i);
      }
      id := None;
    }

    /** Insert under the unique constraint. */
    method Insert(id: RowId, key: Option<Key>) returns (ok: bool)
      requires Valid() && id !in rows
      modifies this
      ensures Valid()
      ensures ok <==> key.None? || forall i :: i in old(rows) ==> old(rows)[i] != key
      ensures rows == if ok then old(rows)[id := key] else old(rows)
    {
      ok := key.None? || !exists i :: i in rows && rows[i] == key;
      if ok {
        rows := rows[id := key];
      }
    }

    /**
     * Returns the task of the key, creating it exactly if there is none. No call is refused, and calling
     * again with the same key returns the same task and creates nothing.
     */
    method CreateTask(spare: RowId, key: Option<Key>) returns (id: Option<RowId>, created: bool)
      requires Valid() && spare !in rows
      modifies this
      ensures Valid()
      ensures rows == if created then old(rows)[spare := key] else old(rows)
      ensures id.Some? && id.value in rows && rows[id.value] == key && (created <==> id.value == spare)
      ensures created <==> key.None? || forall i :: i in old(rows) ==> old(rows)[i] != key
    {
      if key.Some? {
        id := Select(key);
        if id.Some? {
          return id, false;
        }
      }
      created := Insert(spare, key);
      if created {
        return Some(spare), true;
      }
      id := None;
      if key.Some? {
        id := Select(key);
      }
    }
  }
}
