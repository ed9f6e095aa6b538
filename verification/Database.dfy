/** The key-value store and its test for commands that cannot be reordered. */
module Databases {
  import opened Types

  type Key = int
  type Value = seq<int>

  /** A nil value makes a command a read; a missing key reads as nil. */
  datatype Command = Command(key: Key, value: Option<Value>, clientId: NodeId, commandId: int)
  {
    predicate IsRead() { value.None? }
  }

  /** The store as a value; `history` is kept only in multi-version mode. */
  datatype Store = Store(data: map<Key, Value>, version: nat, multiversion: bool, history: map<Key, seq<Value>>)
  {
    function Get(k: Key): Option<Value> {
      if k in data then Some(data[k]) else None
    }

    function History(k: Key): seq<Value> {
      if k in history then history[k] else []
    }
  }

  function Put(d: Store, k: Key, v: Option<Value>): Store {
    if v.None? then d
    else d.(data := d.data[k := v.value], version := d.version + 1,
            history := if d.multiversion then d.history[k := d.History(k) + [v.value]] else d.history)
  }

  function Execute(d: Store, c: Command): Store {
    Put(d, c.key, c.value)
  }

  class Database {
    var data: map<Key, Value>
    var version: nat
    const multiversion: bool
    var history: map<Key, seq<Value>>

    ghost function Abs(): Store
      reads this
    {
      Store(data, version, multiversion, history)
    }

    constructor (multiversion: bool)
      ensures Abs() == Store(map[], 0, multiversion, map[])
    {
      data, version, this.multiversion, history := map[], 0, multiversion, map[];
    }

    method PutValue(k: Key, v: Option<Value>)
      modifies this
      ensures Abs() == Put(old(Abs()), k, v)
    {
      if v.Some? {
        data := data[k := v.value];
        version := version + 1;
        if multiversion {
          if k !in history {
            history := history[k := []];
          }
          history := history[k := history[k] + [v.value]];
        }
      }
    }

    /** Executes a command and returns the previous value of its key. */
    method ExecuteCommand(c: Command) returns (previous: Option<Value>)
      modifies this
      ensures Abs() == Execute(old(Abs()), c) && previous == old(Abs()).Get(c.key)
    {
      previous := if c.key in data then Some(data[c.key]) else None;
      PutValue(c.key, c.value);
    }
  }

  predicate Conflict(gamma: Command, delta: Command) {
    gamma.key == delta.key && (!gamma.IsRead() || !delta.IsRead())
  }

  ghost predicate Conflicts(b1: seq<Command>, b2: seq<Command>) {
    exists i, j :: 0 <= i < |b1| && 0 <= j < |b2| && Conflict(b1[i], b2[j])
  }

  /** The nested scan answers whether some pair conflicts. */
  method ConflictBatch(batch1: seq<Command>, batch2: seq<Command>) returns (conflict: bool)
    ensures conflict <==> Conflicts(batch1, batch2)
  {
    var i := 0;
    while i < |batch1|
      invariant 0 <= i <= |batch1|
      invariant forall x, y :: 0 <= x < i && 0 <= y < |batch2| ==> !Conflict(batch1[x], batch2[y])
    {
      var j := 0;
      while j < |batch2|
        invariant 0 <= j <= |batch2|
        invariant forall y :: 0 <= y < j ==> !Conflict(batch1[i], batch2[y])
      {
        if Conflict(batch1[i], batch2[j]) {
          return true;
        }
        j := j + 1;
      }
      i := i + 1;
    }
    return false;
  }

  // What a batch does.

  function ExecuteAll(d: Store, b: seq<Command>): Store {
    if b == [] then d else Execute(ExecuteAll(d, b[..|b| - 1]), b[|b| - 1])
  }

  /** The previous value each command of a batch returns. */
  function Replies(d: Store, b: seq<Command>): seq<Option<Value>> {
    if b == [] then []
    else Replies(d, b[..|b| - 1]) + [ExecuteAll(d, b[..|b| - 1]).Get(b[|b| - 1].key)]
  }

  /** Running the batches in the two orders: same data, same version, same history, and the same reply to each command. */
  ghost predicate Reorderable(d: Store, b1: seq<Command>, b2: seq<Command>) {
    && ExecuteAll(ExecuteAll(d, b1), b2) == ExecuteAll(ExecuteAll(d, b2), b1)
    && Replies(d, b1) == Replies(ExecuteAll(d, b2), b1)
    && Replies(d, b2) == Replies(ExecuteAll(d, b1), b2)
  }

  lemma CommuteOne(d: Store, c: Command, e: Command)
    requires !Conflict(c, e)
    ensures Execute(Execute(d, c), e) == Execute(Execute(d, e), c)
    ensures Execute(d, c).Get(e.key) == d.Get(e.key)
  {
    if c.value.Some? && e.value.Some? {
      CommutePuts(d, c.key, c.value.value, e.key, e.value.value);
    }
  }

  lemma CommutePuts(d: Store, k: Key, v: Value, k': Key, v': Value)
    requires k != k'
    ensures Put(Put(d, k, Some(v)), k', Some(v')) == Put(Put(d, k', Some(v')), k, Some(v))
  {
    var s, s' := Put(Put(d, k, Some(v)), k', Some(v')), Put(Put(d, k', Some(v')), k, Some(v));
    assert s.data == s'.data;
    assert s.history == s'.history by {
      if d.multiversion {
        var h, h' := d.History(k) + [v], d.History(k') + [v'];
        assert s.history == d.history[k := h][k' := h'];
        assert s'.history == d.history[k' := h'][k := h];
      }
    }
  }

  /** One command moves past a batch it does not conflict with. */
  lemma {:induction false} CommuteBatch(d: Store, c: Command, b: seq<Command>)
    requires forall i :: 0 <= i < |b| ==> !Conflict(c, b[i])
    ensures ExecuteAll(Execute(d, c), b) == Execute(ExecuteAll(d, b), c)
    ensures Replies(Execute(d, c), b) == Replies(d, b)
    ensures ExecuteAll(d, b).Get(c.key) == d.Get(c.key)
  {
    if b != [] {
      var before, last := b[..|b| - 1], b[|b| - 1];
      CommuteBatch(d, c, before);
      CommuteOne(ExecuteAll(d, before), c, last);
      CommuteOne(ExecuteAll(d, before), last, c);
    }
  }

  /** Reordering soundness: batches that do not conflict can be swapped on any database. */
  lemma {:induction false} NoConflictReorders(d: Store, b1: seq<Command>, b2: seq<Command>)
    requires !Conflicts(b1, b2)
    ensures Reorderable(d, b1, b2)
  {
    if b1 != [] {
      var before, last := b1[..|b1| - 1], b1[|b1| - 1];
      forall i, j | 0 <= i < |before| && 0 <= j < |b2| ensures !Conflict(before[i], b2[j]) {
        assert before[i] == b1[i];
      }
      NoConflictReorders(d, before, b2);
      var mid := ExecuteAll(d, before);
      forall j | 0 <= j < |b2| ensures !Conflict(last, b2[j]) {}
      CommuteBatch(mid, last, b2);
    }
  }

  // A conflict is always observable.

  /** The value a batch leaves under a key, if it writes it. */
  function LastWrite(b: seq<Command>, k: Key): Option<Value> {
    if b == [] then None
    else if b[|b| - 1].key == k && b[|b| - 1].value.Some? then b[|b| - 1].value
    else LastWrite(b[..|b| - 1], k)
  }

  lemma {:induction false} GetAfter(d: Store, b: seq<Command>, k: Key)
    ensures ExecuteAll(d, b).Get(k) == if LastWrite(b, k).Some? then LastWrite(b, k) else d.Get(k)
  {
    if b != [] { GetAfter(d, b[..|b| - 1], k); }
  }

  /** The values a batch writes under a key, in order. */
  function WritesTo(b: seq<Command>, k: Key): seq<Value> {
    if b == [] then [] else
    var c := b[|b| - 1];
    WritesTo(b[..|b| - 1], k) + if c.key == k && c.value.Some? then [c.value.value] else []
  }

  function WriteNo(b: seq<Command>): nat {
    if b == [] then 0 else WriteNo(b[..|b| - 1]) + if b[|b| - 1].IsRead() then 0 else 1
  }

  /** The version counts the writes, and in multi-version mode the history lists them, oldest first, ending in the
      current value. */
  lemma {:induction false} HistoryIsWrites(d: Store, b: seq<Command>, k: Key)
    ensures ExecuteAll(d, b).version == d.version + WriteNo(b) && ExecuteAll(d, b).multiversion == d.multiversion
    ensures ExecuteAll(d, b).History(k) == d.History(k) + if d.multiversion then WritesTo(b, k) else []
    ensures LastWrite(b, k) == if WritesTo(b, k) == [] then None else Some(WritesTo(b, k)[|WritesTo(b, k)| - 1])
  {
    if b != [] { HistoryIsWrites(d, b[..|b| - 1], k); }
  }

  lemma {:induction false} ReplyAt(d: Store, b: seq<Command>, m: nat)
    requires m < |b|
    ensures |Replies(d, b)| == |b| && Replies(d, b)[m] == ExecuteAll(d, b[..m]).Get(b[m].key)
  {
    var before := b[..|b| - 1];
    if |b| > 1 { ReplyAt(d, before, if m < |before| then m else 0); }
    if m < |before| {
      assert before[..m] == b[..m];
    }
  }

  lemma {:induction false} WrittenSomewhere(b: seq<Command>, k: Key, i: nat)
    requires i < |b| && b[i].key == k && b[i].value.Some?
    ensures LastWrite(b, k).Some?
  {
    if i < |b| - 1 { WrittenSomewhere(b[..|b| - 1], k, i); }
  }

  lemma {:induction false} Untouched(b: seq<Command>, k: Key)
    requires forall x :: 0 <= x < |b| ==> b[x].key != k
    ensures LastWrite(b, k).None?
  {
    if b != [] { Untouched(b[..|b| - 1], k); }
  }

  lemma {:induction false} FirstOn(b: seq<Command>, k: Key, j: nat) returns (m: nat)
    requires j < |b| && b[j].key == k
    ensures m <= j && b[m].key == k && forall x :: 0 <= x < m ==> b[x].key != k
    decreases j
  {
    if x :| 0 <= x < j && b[x].key == k {
      m := FirstOn(b, k, x);
    } else {
      m := j;
    }
  }

  /** A write in one batch changes the reply to the first command on that key in the other. */
  lemma WriteIsSeen(b1: seq<Command>, b2: seq<Command>, i: nat, j: nat) returns (d: Store)
    requires i < |b1| && j < |b2| && b1[i].key == b2[j].key && b1[i].value.Some?
    ensures Replies(d, b2) != Replies(ExecuteAll(d, b1), b2)
  {
    var k := b1[i].key;
    WrittenSomewhere(b1, k, i);
    var v := LastWrite(b1, k).value;
    d := Store(map[k := v + [0]], 0, false, map[]);
    var m := FirstOn(b2, k, j);
    Untouched(b2[..m], k);
    ReplyAt(d, b2, m);
    GetAfter(d, b2[..m], k);
    ReplyAt(ExecuteAll(d, b1), b2, m);
    GetAfter(ExecuteAll(d, b1), b2[..m], k);
    GetAfter(d, b1, k);
    assert |v + [0]| == |v| + 1;
  }

  /** Conflict detection is exact: two batches conflict if and only if on some database swapping them is observable. */
  lemma ConflictIsExact(b1: seq<Command>, b2: seq<Command>)
    ensures Conflicts(b1, b2) <==> exists d :: !Reorderable(d, b1, b2)
  {
    if Conflicts(b1, b2) {
      var i, j :| 0 <= i < |b1| && 0 <= j < |b2| && Conflict(b1[i], b2[j]);
      if b1[i].value.Some? {
        var d := WriteIsSeen(b1, b2, i, j);
        assert !Reorderable(d, b1, b2);
      } else {
        var d := WriteIsSeen(b2, b1, j, i);
        assert !Reorderable(d, b1, b2);
      }
    } else {
      forall d ensures Reorderable(d, b1, b2) { NoConflictReorders(d, b1, b2); }
    }
  }
}
