/** The usage tracker of a client process and the server side of a sync, updated in place. */
module UsageSync {
  import opened Options
  import opened Amounts
  import P = SyncPipeline

  /** The usage recorded for one timestamp. */
  datatype Record = Record(byProjectId: map<nat, int>, byAccessKey: map<string, int>)

  type Usage = map<Instant, Record>

  const EMPTY: Record := Record(map[], map[])

  /** A map entry, or zero where the key is missing, as reading a Go map gives it. */
  function Get<K>(m: map<K, int>, k: K): int {
    if k in m then m[k] else 0
  }

  function AmountIn(u: Usage, e: Entry): int {
    if e.now !in u then 0
    else
      match e.owner
      case AccessKey(k) => Get(u[e.now].byAccessKey, k)
      case Project(id) => Get(u[e.now].byProjectId, id)
  }

  predicate Pending(u: Usage, e: Entry) {
    e.now in u &&
    match e.owner
    case AccessKey(k) => k in u[e.now].byAccessKey
    case Project(id) => id in u[e.now].byProjectId
  }

  /** Which inserts the server can make: `decode` finds the project of an access key, `rejects`
      says that the store fails on an entry. */
  datatype Faults = Faults(decode: string -> Option<nat>, rejects: Entry -> bool)

  predicate Decodes(f: Faults, e: Entry) {
    e.owner.AccessKey? ==> f.decode(e.owner.key).Some?
  }

  predicate Stores(f: Faults, e: Entry) {
    Decodes(f, e) && !f.rejects(e)
  }

  predicate SameCall(a: Entry, b: Entry) {
    a.now == b.now && a.owner.AccessKey? == b.owner.AccessKey?
  }

  /** Some entry of the call that carries e is not stored, so the server returns an error. */
  ghost predicate CallFails(f: Faults, u: Usage, e: Entry) {
    exists x :: SameCall(x, e) && Pending(u, x) && !Stores(f, x)
  }

  /** What a sync of u does with entry e. Over RPC the reply map is dropped when the server also
      returns an error. */
  ghost function OutcomeOf(f: Faults, rpc: bool, u: Usage, e: Entry): P.Outcome {
    if Stores(f, e) then (if rpc && CallFails(f, u, e) then P.InsertedUnreported else P.Inserted)
    else if rpc || !Decodes(f, e) then P.Omitted
    else P.Refused
  }

  /** What a sync of u with ledger leaves, while other goroutines' recordings grow from h to h':
      exactly the refused entries and those recordings in the tracker, and exactly the storable
      entries added to the ledger. */
  ghost predicate SyncResult(f: Faults, rpc: bool, u: Usage, ledger: Bag, h: Bag, u': Usage, ledger': Bag, h': Bag) {
    && (forall e ::
          AmountIn(u', e) - Amount(h', e)
          == (if OutcomeOf(f, rpc, u, e).Refused? then AmountIn(u, e) else 0) - Amount(h, e))
    && (forall e :: Amount(ledger', e) == Amount(ledger, e) + (if Stores(f, e) then AmountIn(u, e) else 0))
  }

  /** The storable entries among the first-named keys have been added to the ledger, nothing else. */
  ghost predicate KeysStored(f: Faults, now: Instant, usage: map<string, int>, done: set<string>, before: Bag, after: Bag) {
    forall e ::
      Amount(after, e) == Amount(before, e)
      + (if e.now == now && e.owner.AccessKey? && e.owner.key in done && Stores(f, e) then Get(usage, e.owner.key) else 0)
  }

  ghost predicate ProjectsStored(f: Faults, now: Instant, usage: map<nat, int>, done: set<nat>, before: Bag, after: Bag) {
    forall e ::
      Amount(after, e) == Amount(before, e)
      + (if e.now == now && e.owner.Project? && e.owner.id in done && Stores(f, e) then Get(usage, e.owner.id) else 0)
  }

  lemma KeyStored(f: Faults, now: Instant, usage: map<string, int>, done: set<string>, key: string,
                  before: Bag, mid: Bag, after: Bag)
    requires KeysStored(f, now, usage, done, before, mid) && key in usage && key !in done
    requires var e := Entry(now, AccessKey(key));
      after == if Stores(f, e) then Add(mid, e, usage[key]) else mid
    ensures KeysStored(f, now, usage, done + {key}, before, after)
  {
  }

  lemma ProjectStored(f: Faults, now: Instant, usage: map<nat, int>, done: set<nat>, id: nat,
                      before: Bag, mid: Bag, after: Bag)
    requires ProjectsStored(f, now, usage, done, before, mid) && id in usage && id !in done
    requires var e := Entry(now, Project(id));
      after == if Stores(f, e) then Add(mid, e, usage[id]) else mid
    ensures ProjectsStored(f, now, usage, done + {id}, before, after)
  {
  }

  /** The reply so far names these projects and tells which were stored, and whether one was not. */
  ghost predicate ProjectsReplied(f: Faults, now: Instant, done: set<nat>, reply: map<nat, bool>, failed: bool) {
    && (forall id :: id in reply <==> id in done)
    && (forall id :: id in reply ==> reply[id] == Stores(f, Entry(now, Project(id))))
    && (failed <==> exists id :: id in done && !Stores(f, Entry(now, Project(id))))
  }

  lemma ProjectReplied(f: Faults, now: Instant, done: set<nat>, id: nat, reply: map<nat, bool>, failed: bool, ok: bool)
    requires ProjectsReplied(f, now, done, reply, failed) && ok == Stores(f, Entry(now, Project(id)))
    ensures ProjectsReplied(f, now, done + {id}, reply[id := ok], failed || !ok)
  {
    if !ok {
      assert id in done + {id} && !Stores(f, Entry(now, Project(id)));
    }
  }

  /** What others have recorded from one moment to another, on top of b. */
  function HeardBy(b: Bag, others: nat -> seq<Adding>, from: nat, to: nat): Bag
    decreases to
  {
    if to <= from then b else AddAll(HeardBy(b, others, from, to - 1), others(to - 1))
  }

  lemma {:induction false} HeardOn(b: Bag, others: nat -> seq<Adding>, i: nat, j: nat, k: nat)
    requires i <= j <= k
    ensures HeardBy(HeardBy(b, others, i, j), others, j, k) == HeardBy(b, others, i, k)
    decreases k
  {
    if j < k {
      HeardOn(b, others, i, j, k - 1);
    }
  }

  /** SyncResult with the buckets of todo still to come. */
  ghost predicate SyncedSoFar(f: Faults, rpc: bool, u: Usage, ledger: Bag, h: Bag, todo: set<Instant>,
                              u': Usage, ledger': Bag, h': Bag) {
    && (forall e ::
          AmountIn(u', e) - Amount(h', e)
          == (if e.now !in todo && OutcomeOf(f, rpc, u, e).Refused? then AmountIn(u, e) else 0) - Amount(h, e))
    && (forall e ::
          Amount(ledger', e) == Amount(ledger, e) + (if e.now !in todo && Stores(f, e) then AmountIn(u, e) else 0))
  }

  lemma NothingSynced(f: Faults, rpc: bool, u: Usage, ledger: Bag, h: Bag, u': Usage, h': Bag)
    requires forall e :: AmountIn(u', e) - Amount(h', e) == -Amount(h, e)
    ensures SyncedSoFar(f, rpc, u, ledger, h, u.Keys, u', ledger, h')
  {
  }

  lemma AllSynced(f: Faults, rpc: bool, u: Usage, ledger: Bag, h: Bag, u': Usage, ledger': Bag, h': Bag)
    requires SyncedSoFar(f, rpc, u, ledger, h, {}, u', ledger', h')
    ensures SyncResult(f, rpc, u, ledger, h, u', ledger', h')
  {
  }

  lemma BucketSynced(f: Faults, rpc: bool, u: Usage, ledger: Bag, h: Bag, todo: set<Instant>, now: Instant,
                     u1: Usage, ledger1: Bag, h1: Bag, u2: Usage, ledger2: Bag, h2: Bag)
    requires SyncedSoFar(f, rpc, u, ledger, h, todo, u1, ledger1, h1) && now in todo
    requires forall e ::
        AmountIn(u2, e) - Amount(h2, e) == AmountIn(u1, e) - Amount(h1, e)
        + (if e.now == now && OutcomeOf(f, rpc, u, e).Refused? then AmountIn(u, e) else 0)
    requires forall e ::
        Amount(ledger2, e) == Amount(ledger1, e) + (if e.now == now && Stores(f, e) then AmountIn(u, e) else 0)
    ensures SyncedSoFar(f, rpc, u, ledger, h, todo - {now}, u2, ledger2, h2)
  {
  }

  /** Whether some entry of the buckets that are done could not be stored. */
  ghost predicate FailedSoFar(f: Faults, u: Usage, todo: set<Instant>, failed: bool) {
    failed <==> exists x: Entry :: x.now !in todo && Pending(u, x) && !Stores(f, x)
  }

  lemma BucketDone(f: Faults, u: Usage, todo: set<Instant>, now: Instant, failed: bool, bucketFailed: bool)
    requires FailedSoFar(f, u, todo, failed) && now in todo
    requires bucketFailed <==> exists x: Entry :: x.now == now && Pending(u, x) && !Stores(f, x)
    ensures FailedSoFar(f, u, todo - {now}, failed || bucketFailed)
  {
  }

  lemma ProjectCallFails(f: Faults, u: Usage, now: Instant, failed: bool)
    requires now in u && (failed <==> exists id :: id in u[now].byProjectId && !Stores(f, Entry(now, Project(id))))
    ensures failed <==> CallFails(f, u, Entry(now, Project(0)))
  {
    if failed {
      var id :| id in u[now].byProjectId && !Stores(f, Entry(now, Project(id)));
      assert Pending(u, Entry(now, Project(id))) && SameCall(Entry(now, Project(id)), Entry(now, Project(0)));
    }
  }

  function AddAll(b: Bag, adding: seq<Adding>): Bag
    decreases |adding|
  {
    if adding == [] then b else AddAll(Add(b, adding[0].e, adding[0].amount), adding[1..])
  }

  /** The ledger side: what the server stores, and what it replies. */
  class UsageServer {
    const faults: Faults
    var ledger: Bag

    constructor (faults: Faults)
      ensures this.faults == faults && ledger == map[]
    {
      this.faults := faults;
      ledger := map[];
    }

    method InsertAccessUsage(e: Entry, amount: int) returns (ok: bool)
      modifies this
      ensures ok == !faults.rejects(e)
      ensures ledger == if ok then Add(old(ledger), e, amount) else old(ledger)
    {
      ok := !faults.rejects(e);
      if ok {
        ledger := Add(ledger, e, amount);
      }
    }

    method SyncAccessKeyUsage(now: Instant, usage: map<string, int>) returns (reply: map<string, bool>, failed: bool)
      modifies this
      ensures forall k :: k in reply <==> k in usage && Decodes(faults, Entry(now, AccessKey(k)))
      ensures forall k :: k in reply ==> reply[k] == Stores(faults, Entry(now, AccessKey(k)))
      ensures failed <==> exists k :: k in usage && !Stores(faults, Entry(now, AccessKey(k)))
      ensures KeysStored(faults, now, usage, usage.Keys, old(ledger), ledger)
    {
      reply, failed := map[], false;
      var todo := usage.Keys;
      ghost var done: set<string> := {};
      while todo != {}
        invariant todo <= usage.Keys && done == usage.Keys - todo
        invariant forall k :: k in reply <==> k in done && Decodes(faults, Entry(now, AccessKey(k)))
        invariant forall k :: k in reply ==> reply[k] == Stores(faults, Entry(now, AccessKey(k)))
        invariant failed <==> exists k :: k in done && !Stores(faults, Entry(now, AccessKey(k)))
        invariant KeysStored(faults, now, usage, done, old(ledger), ledger)
        decreases |todo|
      {
        var key :| key in todo;
        todo := todo - {key};
        ghost var before := ledger;
        var e := Entry(now, AccessKey(key));
        if faults.decode(key).None? {
          failed := true;
          assert !Stores(faults, e);
        } else {
          var ok := InsertAccessUsage(e, usage[key]);
          if !ok {
            failed := true;
            assert !Stores(faults, e);
          }
          reply := reply[key := ok];
        }
        KeyStored(faults, now, usage, done, key, old(ledger), before, ledger);
        done := done + {key};
      }
    }

    method SyncProjectUsage(now: Instant, usage: map<nat, int>) returns (reply: map<nat, bool>, failed: bool)
      modifies this
      ensures forall id :: id in reply <==> id in usage
      ensures forall id :: id in reply ==> reply[id] == Stores(faults, Entry(now, Project(id)))
      ensures failed <==> exists id :: id in usage && !Stores(faults, Entry(now, Project(id)))
      ensures ProjectsStored(faults, now, usage, usage.Keys, old(ledger), ledger)
    {
      reply, failed := map[], false;
      var todo := usage.Keys;
      ghost var done: set<nat> := {};
      while todo != {}
        invariant todo <= usage.Keys && done == usage.Keys - todo
        invariant ProjectsReplied(faults, now, done, reply, failed)
        invariant ProjectsStored(faults, now, usage, done, old(ledger), ledger)
        decreases |todo|
      {
        var id :| id in todo;
        todo := todo - {id};
        ghost var before, replied, failing := ledger, reply, failed;
        var ok := InsertAccessUsage(Entry(now, Project(id)), usage[id]);
        failed := failed || !ok;
        reply := reply[id := ok];
        ProjectReplied(faults, now, done, id, replied, failing, ok);
        ProjectStored(faults, now, usage, done, id, old(ledger), before, ledger);
        done := done + {id};
      }
    }
  }

  /** A recording by another goroutine. */
  datatype Adding = Adding(e: Entry, amount: int)

  /** The tracker, which other goroutines share: `others` says what they record between one step of a
      sync and the next, and `heard` adds up what they have recorded. */
  class Tracker {
    const others: nat -> seq<Adding>
    var usage: Usage
    var clock: nat
    ghost var heard: Bag

    constructor (others: nat -> seq<Adding>)
      ensures this.others == others && usage == map[] && heard == map[] && clock == 0
    {
      this.others, usage, clock, heard := others, map[], 0, map[];
    }

    /** What is here of an entry apart from the other goroutines' recordings. */
    ghost function Own(e: Entry): int
      reads this
    {
      AmountIn(usage, e) - Amount(heard, e)
    }

    /** `heard` is what the others have recorded since the moment c, on top of h. */
    ghost predicate HeardSince(h: Bag, c: nat)
      reads this
    {
      c <= clock && heard == HeardBy(h, others, c, clock)
    }

    /** The other goroutines record. */
    method Meanwhile()
      modifies this
      ensures forall e :: Own(e) == old(Own(e))
      ensures HeardSince(old(heard), old(clock)) && clock == old(clock) + 1
    {
      var adding := others(clock);
      var i := 0;
      while i < |adding|
        invariant 0 <= i <= |adding| && clock == old(clock)
        invariant forall e :: Own(e) == old(Own(e))
        invariant AddAll(heard, adding[i..]) == AddAll(old(heard), adding)
      {
        var x := adding[i];
        assert adding[i..][1..] == adding[i + 1..];
        match x.e.owner {
          case AccessKey(k) => AddKeyUsage(k, x.e.now, x.amount);
          case Project(id) => AddProjectUsage(id, x.e.now, x.amount);
        }
        heard := Add(heard, x.e, x.amount);
        i := i + 1;
      }
      clock := clock + 1;
    }

    method AddKeyUsage(accessKey: string, now: Instant, amount: int)
      modifies this
      ensures forall e ::
          AmountIn(usage, e) == AmountIn(old(usage), e) + (if e == Entry(now, AccessKey(accessKey)) then amount else 0)
      ensures forall e :: Pending(usage, e) <==> Pending(old(usage), e) || e == Entry(now, AccessKey(accessKey))
      ensures heard == old(heard) && clock == old(clock)
    {
      if now !in usage {
        usage := usage[now := EMPTY];
      }
      var r := usage[now];
      usage := usage[now := r.(byAccessKey := r.byAccessKey[accessKey := Get(r.byAccessKey, accessKey) + amount])];
    }

    method AddProjectUsage(projectId: nat, now: Instant, amount: int)
      modifies this
      ensures forall e ::
          AmountIn(usage, e) == AmountIn(old(usage), e) + (if e == Entry(now, Project(projectId)) then amount else 0)
      ensures forall e :: Pending(usage, e) <==> Pending(old(usage), e) || e == Entry(now, Project(projectId))
      ensures heard == old(heard) && clock == old(clock)
    {
      if now !in usage {
        usage := usage[now := EMPTY];
      }
      var r := usage[now];
      usage := usage[now := r.(byProjectId := r.byProjectId[projectId := Get(r.byProjectId, projectId) + amount])];
    }

    method GetUpdates() returns (updates: Usage)
      modifies this
      ensures updates == old(usage) && usage == map[] && heard == old(heard) && clock == old(clock)
    {
      updates := usage;
      usage := map[];
    }

    /** Adds back the entries of one access-key reply that were not stored. */
    method AddBackKeys(reply: map<string, bool>, now: Instant, amounts: map<string, int>)
      modifies this
      ensures HeardSince(old(heard), old(clock))
      ensures forall e ::
          Own(e) == old(Own(e))
          + if e.now == now && e.owner.AccessKey? && e.owner.key in reply && !reply[e.owner.key]
          then Get(amounts, e.owner.key) else 0
    {
      var todo := reply.Keys;
      while todo != {}
        invariant todo <= reply.Keys && HeardSince(old(heard), old(clock))
        invariant forall e ::
            Own(e) == old(Own(e))
            + if e.now == now && e.owner.AccessKey? && e.owner.key in reply.Keys - todo && !reply[e.owner.key]
            then Get(amounts, e.owner.key) else 0
        decreases |todo|
      {
        var accessKey :| accessKey in todo;
        todo := todo - {accessKey};
        if !reply[accessKey] {
          AddKeyUsage(accessKey, now, Get(amounts, accessKey));
        }
        ghost var c := clock;
        Meanwhile();
        HeardOn(old(heard), others, old(clock), c, clock);
      }
    }

    /** Adds back the entries of one project reply that were not stored. */
    method AddBackProjects(reply: map<nat, bool>, now: Instant, amounts: map<nat, int>)
      modifies this
      ensures HeardSince(old(heard), old(clock))
      ensures forall e ::
          Own(e) == old(Own(e))
          + if e.now == now && e.owner.Project? && e.owner.id in reply && !reply[e.owner.id]
          then Get(amounts, e.owner.id) else 0
    {
      var todo := reply.Keys;
      while todo != {}
        invariant todo <= reply.Keys && HeardSince(old(heard), old(clock))
        invariant forall e ::
            Own(e) == old(Own(e))
            + if e.now == now && e.owner.Project? && e.owner.id in reply.Keys - todo && !reply[e.owner.id]
            then Get(amounts, e.owner.id) else 0
        decreases |todo|
      {
        var projectId :| projectId in todo;
        todo := todo - {projectId};
        if !reply[projectId] {
          AddProjectUsage(projectId, now, Get(amounts, projectId));
        }
        ghost var c := clock;
        Meanwhile();
        HeardOn(old(heard), others, old(clock), c, clock);
      }
    }

    /** The access-key half of a bucket: the call, and what is added back after it. */
    method SyncKeys(updater: UsageServer, rpc: bool, now: Instant, ghost updates: Usage, r: Record)
      returns (failed: bool)
      requires now in updates && updates[now] == r
      modifies this, updater
      ensures HeardSince(old(heard), old(clock))
      ensures forall e ::
          Own(e) == old(Own(e))
          + (if e.now == now && e.owner.AccessKey? && OutcomeOf(updater.faults, rpc, updates, e).Refused?
             then AmountIn(updates, e) else 0)
      ensures KeysStored(updater.faults, now, r.byAccessKey, r.byAccessKey.Keys, old(updater.ledger), updater.ledger)
      ensures failed <==> CallFails(updater.faults, updates, Entry(now, AccessKey("")))
    {
      var reply;
      reply, failed := updater.SyncAccessKeyUsage(now, r.byAccessKey);
      Meanwhile();
      if rpc && failed {
        reply := map[];
      }
      ghost var c := clock;
      AddBackKeys(reply, now, r.byAccessKey);
      HeardOn(old(heard), others, old(clock), c, clock);
      assert failed ==> exists k :: k in r.byAccessKey && !Stores(updater.faults, Entry(now, AccessKey(k)));
      assert forall k :: k in r.byAccessKey <==> Pending(updates, Entry(now, AccessKey(k)));
    }

    /** The project half of a bucket. */
    method SyncProjects(updater: UsageServer, rpc: bool, now: Instant, ghost updates: Usage, r: Record)
      returns (failed: bool)
      requires now in updates && updates[now] == r
      modifies this, updater
      ensures HeardSince(old(heard), old(clock))
      ensures forall e ::
          Own(e) == old(Own(e))
          + (if e.now == now && e.owner.Project? && OutcomeOf(updater.faults, rpc, updates, e).Refused?
             then AmountIn(updates, e) else 0)
      ensures ProjectsStored(updater.faults, now, r.byProjectId, r.byProjectId.Keys, old(updater.ledger), updater.ledger)
      ensures failed <==> CallFails(updater.faults, updates, Entry(now, Project(0)))
    {
      var reply;
      reply, failed := updater.SyncProjectUsage(now, r.byProjectId);
      ProjectCallFails(updater.faults, updates, now, failed);
      Meanwhile();
      if rpc && failed {
        reply := map[];
      }
      ghost var c := clock;
      AddBackProjects(reply, now, r.byProjectId);
      HeardOn(old(heard), others, old(clock), c, clock);
    }

    /** One bucket of a sync. */
    method SyncBucket(updater: UsageServer, rpc: bool, now: Instant, ghost updates: Usage, r: Record)
      returns (failed: bool)
      requires now in updates && updates[now] == r
      modifies this, updater
      ensures HeardSince(old(heard), old(clock))
      ensures forall e ::
          Own(e) == old(Own(e))
          + (if e.now == now && OutcomeOf(updater.faults, rpc, updates, e).Refused? then AmountIn(updates, e) else 0)
      ensures forall e ::
          Amount(updater.ledger, e) == Amount(old(updater.ledger), e)
          + (if e.now == now && Stores(updater.faults, e) then AmountIn(updates, e) else 0)
      ensures failed <==> exists x: Entry :: x.now == now && Pending(updates, x) && !Stores(updater.faults, x)
    {
      var keysFailed := SyncKeys(updater, rpc, now, updates, r);
      ghost var c := clock;
      var projectsFailed := SyncProjects(updater, rpc, now, updates, r);
      HeardOn(old(heard), others, old(clock), c, clock);
      failed := keysFailed || projectsFailed;
    }

    /** A whole sync, with others recording between its steps. It leaves exactly the refused entries
        and those recordings, and stores exactly the storable entries, in whatever order buckets,
        keys and replies are visited. */
    method SyncUsage(updater: UsageServer, rpc: bool) returns (failed: bool)
      modifies this, updater
      ensures HeardSince(old(heard), old(clock))
      ensures SyncResult(updater.faults, rpc, old(usage), old(updater.ledger), old(heard), usage, updater.ledger, heard)
      ensures failed <==> exists x :: Pending(old(usage), x) && !Stores(updater.faults, x)
    {
      failed := false;
      var updates := GetUpdates();
      assert forall e :: Own(e) == -Amount(heard, e);
      Meanwhile();
      NothingSynced(updater.faults, rpc, updates, updater.ledger, old(heard), usage, heard);
      var todo := updates.Keys;
      while todo != {}
        invariant todo <= updates.Keys && HeardSince(old(heard), old(clock))
        invariant SyncedSoFar(updater.faults, rpc, updates, old(updater.ledger), old(heard), todo,
                              usage, updater.ledger, heard)
        invariant FailedSoFar(updater.faults, updates, todo, failed)
        decreases |todo|
      {
        var now :| now in todo;
        ghost var u, ledger, h, c := usage, updater.ledger, heard, clock;
        var bucketFailed := SyncBucket(updater, rpc, now, updates, updates[now]);
        BucketSynced(updater.faults, rpc, updates, old(updater.ledger), old(heard), todo, now,
                     u, ledger, h, usage, updater.ledger, heard);
        HeardOn(old(heard), others, old(clock), c, clock);
        BucketDone(updater.faults, updates, todo, now, failed, bucketFailed);
        todo := todo - {now};
        failed := failed || bucketFailed;
      }
      AllSynced(updater.faults, rpc, updates, old(updater.ledger), old(heard), usage, updater.ledger, heard);
    }
  }
}
