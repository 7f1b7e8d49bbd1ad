/** The Redis side of a usage counter: the four methods of the usage cache over its keys. */
module UsageCache {
  import opened Options
  import opened SpendProtocol
  import opened CallCourses

  datatype Spending = Charged(total: int) | OverLimit(seen: int) | Lost

  function UsageKey(key: string): string {
    "usage:" + key
  }

  function CellOf(cells: map<string, int>, key: string): Option<int> {
    if UsageKey(key) in cells then Some(cells[UsageKey(key)]) else None
  }

  /** The keys after one counter has become `cell`, and no other has changed. */
  function Put(cells: map<string, int>, key: string, cell: Option<int>): map<string, int> {
    if cell.Some? then cells[UsageKey(key) := cell.value] else cells - {UsageKey(key)}
  }

  lemma PutTwice(cells: map<string, int>, key: string, a: Option<int>, b: Option<int>)
    ensures Put(Put(cells, key, a), key, b) == Put(cells, key, b)
    ensures CellOf(Put(cells, key, a), key) == a
    ensures Put(cells, key, CellOf(cells, key)) == cells
  {
  }

  /** What Redis calls a counter. */
  lemma UsageKeyText(key: string)
    ensures |UsageKey(key)| == 6 + |key| && UsageKey(key)[..6] == "usage:" && UsageKey(key)[6..] == key
  {
  }

  /** Counters of different keys are independent. */
  lemma PutElsewhere(cells: map<string, int>, key: string, cell: Option<int>, other: string)
    requires key != other
    ensures CellOf(Put(cells, key, cell), other) == CellOf(cells, other)
  {
    assert UsageKey(key)[6..] == key && UsageKey(other)[6..] == other;
  }

  /** Redis, shared with other clients. Before each command others may change the counter it is
      about, and any command may fail, with or without effect: `world` says so by its number. */
  class RedisCache {
    const world: World
    var cells: map<string, int>
    var clock: nat

    constructor (world: World)
      ensures this.world == world && cells == map[] && clock == 0
    {
      this.world := world;
      cells, clock := map[], 0;
    }

    /** What others do to a counter before the next command, and how that command fares. */
    method Meet(key: string) returns (t: Turn)
      modifies this
      ensures t == world(old(clock)) && clock == old(clock) + 1
      ensures cells == Put(old(cells), key, Found(CellOf(old(cells), key), t))
    {
      t := world(clock);
      clock := clock + 1;
      PutTwice(cells, key, None, None);
      if t.others.Becomes? {
        if t.others.cell.Some? {
          cells := cells[UsageKey(key) := t.others.cell.value];
        } else {
          cells := cells - {UsageKey(key)};
        }
      }
    }

    /** SET. */
    method SetUsage(key: string, amount: int) returns (ok: bool)
      modifies this
      ensures clock == old(clock) + 1
      ensures var t := world(old(clock));
        && (ok <==> t.fault.Works?)
        && cells == Put(old(cells), key, if t.fault.Fails? then Found(CellOf(old(cells), key), t) else Some(amount))
    {
      var t := Meet(key);
      if !t.fault.Fails? {
        PutTwice(old(cells), key, CellOf(cells, key), Some(amount));
        cells := cells[UsageKey(key) := amount];
      }
      return t.fault.Works?;
    }

    /** DEL; None if it fails, else whether there was a counter. */
    method ClearUsage(key: string) returns (cleared: Option<bool>)
      modifies this
      ensures clock == old(clock) + 1
      ensures var t := world(old(clock));
        var found := Found(CellOf(old(cells), key), t);
        && cleared == (if t.fault.Works? then Some(found.Some?) else None)
        && cells == Put(old(cells), key, if t.fault.Fails? then found else None)
    {
      var t := Meet(key);
      var found := UsageKey(key) in cells;
      PutTwice(old(cells), key, Found(CellOf(old(cells), key), t), None);
      if !t.fault.Fails? {
        cells := cells - {UsageKey(key)};
      }
      return if t.fault.Works? then Some(found) else None;
    }

    /** SETNX; None if it fails, else whether it has set the placeholder. */
    method SetNx(key: string) returns (placed: Option<bool>)
      modifies this
      ensures clock == old(clock) + 1
      ensures var t := world(old(clock));
        var found := Found(CellOf(old(cells), key), t);
        && placed == (if t.fault.Works? then Some(found.None?) else None)
        && cells == Put(old(cells), key, if found.None? && !t.fault.Fails? then Some(SENTINEL) else found)
    {
      var t := Meet(key);
      var absent := UsageKey(key) !in cells;
      PutTwice(old(cells), key, Found(CellOf(old(cells), key), t), Some(SENTINEL));
      if absent && !t.fault.Fails? {
        cells := cells[UsageKey(key) := SENTINEL];
      }
      return if t.fault.Works? then Some(absent) else None;
    }

    /** A peek takes the course of PeekCourse: it changes an absent counter only, to the placeholder. */
    method PeekUsage(key: string) returns (r: Peek)
      modifies this
      ensures var p := PeekCourse(CellOf(old(cells), key), world, old(clock));
        r == p.peek && clock == p.clock && cells == Put(old(cells), key, p.cell)
    {
      var t := Meet(key);
      if !t.fault.Works? {
        return Broken;
      }
      var found := CellOf(cells, key);
      PutTwice(old(cells), key, found, found);
      if found.Some? {
        return if found.value == SENTINEL then Wait else Usage(found.value);
      }
      var elected := SetNx(key);
      PutTwice(old(cells), key, found, CellOf(cells, key));
      if elected.None? {
        return Broken;
      }
      return if elected.value then Ready else Wait;
    }

    /** Only a counter that a peek has just found live and below the limit is incremented. */
    method SpendUsage(key: string, amount: int, limit: int) returns (r: Spending)
      modifies this
      ensures var p := PeekCourse(CellOf(old(cells), key), world, old(clock));
        var t := world(p.clock);
        var found := Found(p.cell, t);
        if !p.peek.Usage? || p.peek.value >= limit then
          && r == (if p.peek.Usage? then OverLimit(p.peek.value) else Lost)
          && clock == p.clock && cells == Put(old(cells), key, p.cell)
        else
          && r == (if t.fault.Works? then Charged(Value(found) + amount) else Lost)
          && clock == p.clock + 1
          && cells == Put(old(cells), key, if t.fault.Fails? then found else Some(Value(found) + amount))
    {
      var peek := PeekUsage(key);
      if !peek.Usage? {
        return Lost;
      }
      if peek.value >= limit {
        return OverLimit(peek.value);
      }
      ghost var before := CellOf(cells, key);
      var t := Meet(key);
      var total := Value(CellOf(cells, key)) + amount;
      PutTwice(old(cells), key, before, CellOf(cells, key));
      PutTwice(old(cells), key, CellOf(cells, key), Some(total));
      if !t.fault.Fails? {
        cells := cells[UsageKey(key) := total];
      }
      return if t.fault.Works? then Charged(total) else Lost;
    }
  }
}
