/** The many-producer, single-consumer node list of utils/MPSCQueue.h.

    The heap is explicit: `next` holds the `next_` cell of every allocated node and `boxes` the
    payload box each node's `dataPtr_` points to.  Reading, writing or deleting a cell or a box that
    is not allocated sets `fault`, so "no use after free, no double free" is the claim that `fault`
    stays false.  The allocator may hand out the address of a deleted node again. */
module MpscQueue {
  import opened Options

  type Addr = nat

  datatype State<T> = State(head: Addr, tail: Addr, next: map<Addr, Option<Addr>>, boxes: map<Addr, T>, fault: bool)

  /** What has happened so far: the nodes from the dummy to the head in exchange order, every value
      whose head exchange took place, and every value handed to the consumer. */
  datatype History<T> = History(chain: seq<Addr>, enqueued: seq<T>, dequeued: seq<T>)

  // ------------------------------------------------------------------ atomic steps

  function Empty<T>(dummy: Addr): State<T> {
    State(dummy, dummy, map[dummy := None], map[], false)
  }

  /** First half of `enqueue`: allocate the node and its box, and swing `head_` to it. */
  function Exchange<T>(q: State<T>, node: Addr, x: T): State<T> {
    q.(head := node, next := q.next[node := None], boxes := q.boxes[node := x])
  }

  /** Second half of `enqueue`: store the new node in the `next_` cell of the previous head. */
  function Link<T>(q: State<T>, prev: Addr, node: Addr): State<T> {
    if prev in q.next then q.(next := q.next[prev := Some(node)]) else q.(fault := true)
  }

  /** The consumer's read of `tail->next_`: the value seen, and the queue (faulty if `tail` was freed). */
  function Load<T>(q: State<T>): (State<T>, Option<Addr>) {
    if q.tail in q.next then (q, q.next[q.tail]) else (q.(fault := true), None)
  }

  /** Rest of a successful `dequeue`: move the payload out, delete its box, advance `tail_`, delete the old tail. */
  function Take<T>(q: State<T>, n: Addr): State<T> {
    if n in q.next && n in q.boxes && q.tail in q.next
    then State(q.head, n, q.next - {q.tail}, q.boxes - {n}, q.fault)
    else q.(fault := true)
  }

  function AfterExchange<T>(h: History<T>, node: Addr, x: T): History<T> {
    History(h.chain + [node], h.enqueued + [x], h.dequeued)
  }

  function AfterTake<T>(h: History<T>): History<T> {
    if |h.chain| > 1 && |h.dequeued| < |h.enqueued|
    then History(h.chain[1..], h.enqueued, h.dequeued + [h.enqueued[|h.dequeued|]])
    else h
  }

  // ------------------------------------------------------------------ invariant

  ghost predicate NoDuplicates(s: seq<Addr>) {
    forall i, j :: 0 <= i < j < |s| ==> s[i] != s[j]
  }

  /** The allocated nodes are those of the chain; all of them but the tail own a box. */
  ghost predicate Shape<T>(q: State<T>, chain: seq<Addr>) {
    && !q.fault
    && |chain| > 0 && NoDuplicates(chain)
    && q.tail == chain[0] && q.head == chain[|chain| - 1]
    && (forall a :: a in q.next <==> a in chain)
    && (forall a :: a in q.boxes <==> a in chain && a != q.tail)
  }

  /** An edge of the chain is either linked, or still owed by the producer recorded in `pending`. */
  ghost predicate EdgeOk(next: map<Addr, Option<Addr>>, chain: seq<Addr>, pending: map<Addr, Addr>, i: nat)
    requires i + 1 < |chain|
  {
    var a, b := chain[i], chain[i + 1];
    a in next && if a in pending then next[a] == None && pending[a] == b else next[a] == Some(b)
  }

  ghost predicate Links(next: map<Addr, Option<Addr>>, chain: seq<Addr>, pending: map<Addr, Addr>) {
    && |chain| > 0
    && (forall i: nat :: i + 1 < |chain| ==> EdgeOk(next, chain, pending, i))
    && (var head := chain[|chain| - 1]; head in next && next[head] == None && head !in pending)
    && (forall a :: a in pending ==> a in chain)
  }

  ghost predicate BoxOk<T>(boxes: map<Addr, T>, h: History<T>, i: nat)
    requires 1 <= i < |h.chain| && |h.enqueued| == |h.dequeued| + |h.chain| - 1
  {
    h.chain[i] in boxes && boxes[h.chain[i]] == h.enqueued[|h.dequeued| + i - 1]
  }

  /** The outstanding nodes hold, in order, the values enqueued and not yet dequeued. */
  ghost predicate Values<T>(boxes: map<Addr, T>, h: History<T>) {
    && 0 < |h.chain| && |h.enqueued| == |h.dequeued| + |h.chain| - 1
    && h.dequeued == h.enqueued[..|h.dequeued|]
    && forall i :: 1 <= i < |h.chain| ==> BoxOk(boxes, h, i)
  }

  /** `pending` maps the previous head of every half-finished enqueue (exchanged, not linked) to its node. */
  ghost predicate Inv<T>(q: State<T>, h: History<T>, pending: map<Addr, Addr>) {
    Shape(q, h.chain) && Links(q.next, h.chain, pending) && Values(q.boxes, h)
  }

  lemma EmptyInv<T>(dummy: Addr)
    ensures Inv<T>(Empty(dummy), History([dummy], [], []), map[])
  {
  }

  lemma ExchangeInv<T>(q: State<T>, h: History<T>, pending: map<Addr, Addr>, node: Addr, x: T)
    requires Inv(q, h, pending) && node !in q.next
    ensures Inv(Exchange(q, node, x), AfterExchange(h, node, x), pending[q.head := node])
  {
    ExchangeShape(q, h.chain, node, x);
    ExchangeLinks(q.next, h.chain, pending, node);
    ExchangeValues(q.boxes, h, node, x);
  }

  lemma ExchangeShape<T>(q: State<T>, chain: seq<Addr>, node: Addr, x: T)
    requires Shape(q, chain) && node !in q.next
    ensures Shape(Exchange(q, node, x), chain + [node])
  {
  }

  lemma ExchangeValues<T>(boxes: map<Addr, T>, h: History<T>, node: Addr, x: T)
    requires Values(boxes, h) && node !in h.chain
    ensures Values(boxes[node := x], AfterExchange(h, node, x))
  {
    var h' := AfterExchange(h, node, x);
    var boxes' := boxes[node := x];
    forall i | 1 <= i < |h'.chain| ensures BoxOk(boxes', h', i)
    {
      if i < |h.chain| {
        assert BoxOk(boxes, h, i);
      }
    }
  }

  lemma ExchangeLinks(next: map<Addr, Option<Addr>>, chain: seq<Addr>, pending: map<Addr, Addr>, node: Addr)
    requires Links(next, chain, pending) && NoDuplicates(chain) && node !in next && node !in chain
    ensures Links(next[node := None], chain + [node], pending[chain[|chain| - 1] := node])
  {
    var chain', pending' := chain + [node], pending[chain[|chain| - 1] := node];
    var next' := next[node := None];
    forall i: nat | i + 1 < |chain'| ensures EdgeOk(next', chain', pending', i)
    {
      if i < |chain| - 1 {
        assert EdgeOk(next, chain, pending, i);
      }
    }
  }

  /** The owed link goes to an allocated cell that nobody has written before. */
  lemma LinkInv<T>(q: State<T>, h: History<T>, pending: map<Addr, Addr>, prev: Addr)
    requires Inv(q, h, pending) && prev in pending
    ensures prev in q.next && q.next[prev] == None
    ensures Inv(Link(q, prev, pending[prev]), h, pending - {prev})
  {
    var q', pending' := Link(q, prev, pending[prev]), pending - {prev};
    var k :| 0 <= k < |h.chain| && h.chain[k] == prev;
    assert EdgeOk(q.next, h.chain, pending, k);
    forall i | 0 <= i < |h.chain| - 1 ensures EdgeOk(q'.next, h.chain, pending', i) {
      assert EdgeOk(q.next, h.chain, pending, i);
    }
  }

  /** The consumer's load never touches a freed node, and it sees null exactly when nothing is
      outstanding or the oldest outstanding enqueue has not stored its link yet. */
  lemma LoadMeaning<T>(q: State<T>, h: History<T>, pending: map<Addr, Addr>)
    requires Inv(q, h, pending)
    ensures Load(q).0 == q
    ensures Load(q).1 == None <==> h.dequeued == h.enqueued || q.tail in pending
    ensures Load(q).1 != None ==> |h.chain| > 1 && Load(q).1 == Some(h.chain[1])
  {
    if |h.chain| > 1 {
      assert EdgeOk(q.next, h.chain, pending, 0);
      assert |h.dequeued| < |h.enqueued|;
    }
  }

  lemma TailMembers(s: seq<Addr>)
    requires |s| > 0 && NoDuplicates(s)
    ensures NoDuplicates(s[1..])
    ensures forall a :: a in s[1..] <==> a in s && a != s[0]
  {
    forall a | a in s && a != s[0] ensures a in s[1..] {
      var i :| 0 <= i < |s| && s[i] == a;
      assert s[1..][i - 1] == a;
    }
  }

  lemma TakeLinks(next: map<Addr, Option<Addr>>, chain: seq<Addr>, pending: map<Addr, Addr>)
    requires Links(next, chain, pending) && NoDuplicates(chain) && |chain| > 1 && chain[0] !in pending
    ensures Links(next - {chain[0]}, chain[1..], pending)
  {
    TailMembers(chain);
    var next', chain' := next - {chain[0]}, chain[1..];
    forall i: nat | i + 1 < |chain'| ensures EdgeOk(next', chain', pending, i)
    {
      assert EdgeOk(next, chain, pending, i + 1);
    }
  }

  lemma TakeValues<T>(boxes: map<Addr, T>, h: History<T>)
    requires Values(boxes, h) && NoDuplicates(h.chain) && |h.chain| > 1
    ensures |h.dequeued| < |h.enqueued| && Values(boxes - {h.chain[1]}, AfterTake(h))
    ensures h.chain[1] in boxes && boxes[h.chain[1]] == h.enqueued[|h.dequeued|]
  {
    assert BoxOk(boxes, h, 1);
    var h' := AfterTake(h);
    var boxes' := boxes - {h.chain[1]};
    forall i | 1 <= i < |h'.chain| ensures BoxOk(boxes', h', i)
    {
      assert BoxOk(boxes, h, i + 1);
    }
  }

  /** A take that follows a non-null load frees only allocated memory and hands out the oldest value. */
  lemma TakeInv<T>(q: State<T>, h: History<T>, pending: map<Addr, Addr>, n: Addr)
    requires Inv(q, h, pending) && Load(q).1 == Some(n)
    ensures |h.chain| > 1 && |h.dequeued| < |h.enqueued| && n in q.boxes
    ensures q.boxes[n] == h.enqueued[|h.dequeued|]
    ensures Inv(Take(q, n), AfterTake(h), pending)
  {
    LoadMeaning(q, h, pending);
    TailMembers(h.chain);
    TakeLinks(q.next, h.chain, pending);
    TakeValues(q.boxes, h);
  }

  lemma {:induction false} DistinctCount(s: seq<Addr>, members: set<Addr>)
    requires NoDuplicates(s) && forall a :: a in members <==> a in s
    ensures |members| == |s|
  {
    if s == [] {
      assert members == {};
    } else {
      TailMembers(s);
      DistinctCount(s[1..], members - {s[0]});
    }
  }

  /** Nothing leaks: the allocated nodes are the dummy and the outstanding ones, each with its box. */
  lemma Footprint<T>(q: State<T>, h: History<T>, pending: map<Addr, Addr>)
    requires Inv(q, h, pending)
    ensures |q.next| == 1 + |h.enqueued| - |h.dequeued|
    ensures |q.boxes| == |h.enqueued| - |h.dequeued|
  {
    DistinctCount(h.chain, q.next.Keys);
    TailMembers(h.chain);
    DistinctCount(h.chain[1..], q.boxes.Keys);
    assert |q.next.Keys| == |q.next| && |q.boxes.Keys| == |q.boxes|;
  }

  // ------------------------------------------------------------------ the class

  class Queue<T> {
    var head: Addr
    var tail: Addr
    var next: map<Addr, Option<Addr>>
    var boxes: map<Addr, T>
    ghost var history: History<T>
    ghost var pending: map<Addr, Addr>

    ghost function Now(): State<T>
      reads this
    {
      State(head, tail, next, boxes, false)
    }

    ghost predicate Valid()
      reads this
    {
      Inv(Now(), history, pending)
    }

    constructor (dummy: Addr)
      ensures Valid() && Now() == Empty(dummy) && history == History([dummy], [], []) && pending == map[]
    {
      head, tail, next, boxes := dummy, dummy, map[dummy := None], map[];
      history, pending := History([dummy], [], []), map[];
    }

    /** The first atomic step of `enqueue`; `node` is whatever free address the allocator returned. */
    method ExchangeHead(node: Addr, x: T) returns (prev: Addr)
      requires Valid() && node !in next
      modifies this
      ensures Valid() && prev == old(head) && Now() == Exchange(old(Now()), node, x)
      ensures history == AfterExchange(old(history), node, x) && pending == old(pending)[prev := node]
    {
      ExchangeInv(Now(), history, pending, node, x);
      next, boxes := next[node := None], boxes[node := x];
      prev := head;
      head := node;
      history, pending := AfterExchange(history, node, x), pending[prev := node];
    }

    /** The second atomic step of `enqueue`, by the thread that got `prev` out of the exchange. */
    method LinkNext(prev: Addr, node: Addr)
      requires Valid() && prev in pending && pending[prev] == node
      modifies this
      ensures Valid() && Now() == Link(old(Now()), prev, node)
      ensures history == old(history) && pending == old(pending) - {prev}
    {
      LinkInv(Now(), history, pending, prev);
      next := next[prev := Some(node)];
      pending := pending - {prev};
    }

    /** Both steps without interference: the value is queued and nothing is owed. */
    method Enqueue(node: Addr, x: T)
      requires Valid() && node !in next
      modifies this
      ensures Valid() && history == AfterExchange(old(history), node, x) && pending == old(pending)
    {
      assert head !in pending;
      var prev := ExchangeHead(node, x);
      LinkNext(prev, node);
      assert pending == old(pending);
    }

    method Dequeue() returns (output: Option<T>)
      requires Valid()
      modifies this
      ensures Valid() && pending == old(pending)
      ensures output == None <==> old(history.dequeued == history.enqueued || tail in pending)
      ensures output == None ==> Now() == old(Now()) && history == old(history)
      ensures output != None ==>
                && |old(history.dequeued)| < |old(history.enqueued)|
                && output == Some(old(history.enqueued)[|old(history.dequeued)|])
                && history.enqueued == old(history.enqueued)
                && history.dequeued == old(history.dequeued) + [output.value]
    {
      LoadMeaning(Now(), history, pending);
      var n := next[tail];
      if n == None {
        return None;
      }
      var x := TakeNode(n.value);
      output := Some(x);
    }

    /** The rest of a successful `dequeue`, after the load of `tail->next_` returned `n`. */
    method TakeNode(n: Addr) returns (x: T)
      requires Valid() && Load(Now()).1 == Some(n)
      modifies this
      ensures Valid() && |old(history.chain)| > 1 && |old(history.dequeued)| < |old(history.enqueued)|
      ensures Now() == Take(old(Now()), n) && history == AfterTake(old(history)) && pending == old(pending)
      ensures x == old(history.enqueued)[|old(history.dequeued)|]
    {
      TakeInv(Now(), history, pending, n);
      ghost var q, h := Take(Now(), n), AfterTake(history);
      x := boxes[n];
      boxes := boxes - {n};
      next := next - {tail};
      tail := n;
      history := h;
      assert Now() == q;
      assert Valid() <==> Inv(q, h, pending);
    }

    method IsEmpty() returns (empty: bool)
      requires Valid()
      ensures empty <==> history.dequeued == history.enqueued || tail in pending
    {
      LoadMeaning(Now(), history, pending);
      empty := next[tail] == None;
    }

    /** `while (dequeue(f)) f();`, as `loop()` drains the functions registered with `runOnQuit`: it
        takes everything in order, or stops in front of a half-done enqueue. */
    method Drain() returns (ran: seq<T>)
      requires Valid()
      modifies this
      ensures Valid() && pending == old(pending) && history.enqueued == old(history.enqueued)
      ensures history.dequeued == old(history.dequeued) + ran
      ensures history.dequeued == history.enqueued || tail in pending
    {
      ran := [];
      var more := true;
      while more
        invariant Valid() && pending == old(pending) && history.enqueued == old(history.enqueued)
        invariant history.dequeued == old(history.dequeued) + ran
        invariant !more ==> history.dequeued == history.enqueued || tail in pending
        decreases |history.enqueued| - |history.dequeued|, more
      {
        var output := Dequeue();
        if output == None {
          more := false;
        } else {
          ran := ran + [output.value];
        }
      }
    }

    /** The destructor, run when no enqueue is half done: every value is drained in order and every
        node and box that was ever allocated is gone. */
    method Destroy()
      requires Valid() && pending == map[]
      modifies this
      ensures next == map[] && boxes == map[]
      ensures history.enqueued == old(history.enqueued) && history.dequeued == history.enqueued
    {
      var output := Dequeue();
      while output != None
        invariant Valid() && pending == map[] && history.enqueued == old(history.enqueued)
        invariant output == None ==> history.dequeued == history.enqueued
        decreases |history.enqueued| - |history.dequeued|, output != None
      {
        output := Dequeue();
      }
      assert |history.chain| == 1;
      assert next.Keys == {head} && boxes.Keys == {};
      next := next - {head};
    }
  }
}
