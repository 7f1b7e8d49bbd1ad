/** Usage amounts per timestamp and owner, and sums over parts of them. */
module Amounts {
  /** Whom usage is billed to: an access key, or the project itself when the key is empty. */
  datatype Owner = AccessKey(key: string) | Project(id: nat)

  /** A point in time, as the trackers use it for a map key. */
  datatype Instant = Instant(nanos: int)

  datatype Entry = Entry(now: Instant, owner: Owner)

  type Bag = map<Entry, int>

  /** Which entries a sum ranges over. */
  datatype Scope = Everything | At(now: Instant) | Of(owner: Owner) | Only(e: Entry)

  predicate Covers(scope: Scope, e: Entry) {
    match scope
    case Everything => true
    case At(now) => e.now == now
    case Of(owner) => e.owner == owner
    case Only(x) => e == x
  }

  function Amount(b: Bag, e: Entry): int {
    if e in b then b[e] else 0
  }

  function Add(b: Bag, e: Entry, v: int): Bag {
    b[e := Amount(b, e) + v]
  }

  function Share(scope: Scope, e: Entry, v: int): int {
    if Covers(scope, e) then v else 0
  }

  predicate NonNegative(b: Bag) {
    forall e :: e in b ==> b[e] >= 0
  }

  ghost function Total(scope: Scope, b: Bag): int {
    if b == map[] then 0
    else
      var e :| e in b;
      Share(scope, e, b[e]) + Total(scope, b - {e})
  }

  /** The sum does not depend on the order in which the entries are taken. */
  lemma {:induction false} TotalRemove(scope: Scope, b: Bag, e: Entry)
    requires e in b
    ensures Total(scope, b) == Share(scope, e, b[e]) + Total(scope, b - {e})
    decreases |b|
  {
    var x :| x in b && Total(scope, b) == Share(scope, x, b[x]) + Total(scope, b - {x});
    if x != e {
      TotalRemove(scope, b - {x}, e);
      TotalRemove(scope, b - {e}, x);
      assert b - {x} - {e} == b - {e} - {x};
    }
  }

  lemma TotalAdd(scope: Scope, b: Bag, e: Entry, v: int)
    ensures Total(scope, Add(b, e, v)) == Total(scope, b) + Share(scope, e, v)
  {
    var c := Add(b, e, v);
    TotalRemove(scope, c, e);
    assert c - {e} == b - {e};
    if e in b {
      TotalRemove(scope, b, e);
    } else {
      assert b - {e} == b;
    }
  }

  lemma {:induction false} TotalNonNegative(scope: Scope, b: Bag)
    requires NonNegative(b)
    ensures Total(scope, b) >= 0
    decreases |b|
  {
    if b != map[] {
      var e :| e in b;
      TotalRemove(scope, b, e);
      TotalNonNegative(scope, b - {e});
    }
  }

  lemma {:induction false} TotalOfOne(b: Bag, e: Entry)
    ensures Total(Only(e), b) == Amount(b, e)
    decreases |b|
  {
    if b != map[] {
      var x :| x in b;
      TotalRemove(Only(e), b, x);
      TotalOfOne(b - {x}, e);
    }
  }
}
