// The chained hash table of daemon/flow_table.c on the heap: bucket array, linked
// entries, deletion by relinking. It represents a finite map from keys to flows
// and owns the nDPI state that the flows point to.
module FlowTables {
  import opened Basics
  import opened EngineModel
  import opened Ownership
  import Tally

  // FLOW_TABLE_BUCKETS
  const BUCKETS: nat := 65536

  function Fnv(bytes: seq<Byte>, h: nat): nat
    decreases |bytes|
  {
    if bytes == [] then h else Fnv(bytes[1..], Xor(h, bytes[0]) * 16777619 % 0x1_0000_0000)
  }

  function Hash(k: Key): (r: nat)
    ensures r < BUCKETS
  {
    Fnv(KeyBytes(k), 2166136261) % BUCKETS
  }

  // ndpi_flow_malloc and ndpi_flow_free: a handle may be freed only while live.
  class NdpiHeap {
    var live: set<nat>
    var made: nat

    constructor ()
      ensures live == {} && made == 0
    {
      live, made := {}, 0;
    }

    method Malloc(ok: bool) returns (h: Option<nat>)
      modifies this
      ensures h == if ok then Some(old(made)) else None
      ensures live == if ok then old(live) + {old(made)} else old(live)
      ensures made == if ok then old(made) + 1 else old(made)
    {
      if !ok { return None; }
      live := live + {made};
      h := Some(made);
      made := made + 1;
    }

    method Free(h: nat)
      requires h in live
      modifies this`live
      ensures live == old(live) - {h}
    {
      live := live - {h};
    }
  }

  class FlowEntry {
    const key: Key
    var flow: Flow
    var next: FlowEntry?

    constructor (key: Key, flow: Flow, next: FlowEntry?)
      ensures this.key == key && this.flow == flow && this.next == next
    {
      this.key, this.flow, this.next := key, flow, next;
    }
  }

  ghost function Successor(c: seq<FlowEntry>, j: int): FlowEntry?
    requires 0 <= j < |c|
  {
    if j + 1 < |c| then c[j + 1] else null
  }

  // The nodes of a chain, first to last, hang together.
  ghost predicate Linked(c: seq<FlowEntry>, head: FlowEntry?)
    reads (set n | n in c)`next
  {
    && head == (if c == [] then null else c[0])
    && forall j :: 0 <= j < |c| ==> c[j].next == Successor(c, j)
  }

  // Every entry is filed under its key, in the chain of its hash.
  ghost predicate Filed(index: map<Key, FlowEntry>, chains: seq<seq<FlowEntry>>) {
    |chains| == BUCKETS && forall k :: k in index ==> index[k].key == k && index[k] in chains[Hash(k)]
  }

  // Chain i holds table entries of its own bucket, each once.
  ghost predicate Members(c: seq<FlowEntry>, index: map<Key, FlowEntry>, i: nat) {
    && (forall j :: 0 <= j < |c| ==> c[j].key in index && index[c[j].key] == c[j] && Hash(c[j].key) == i)
    && (forall j, l :: 0 <= j < l < |c| ==> c[j] != c[l])
  }

  lemma MembersOfLarger(c: seq<FlowEntry>, index: map<Key, FlowEntry>, i: nat, e: FlowEntry)
    requires Members(c, index, i) && e.key !in index
    ensures Members(c, index[e.key := e], i)
    ensures Hash(e.key) == i ==> Members([e] + c, index[e.key := e], i)
  {
    hide Hash;
    var d := [e] + c;
    assert forall j :: 0 < j < |d| ==> d[j] == c[j - 1];
  }

  lemma LinkedLonger(c: seq<FlowEntry>, e: FlowEntry)
    requires Linked(c, e.next)
    ensures Linked([e] + c, e)
  {
    var d := [e] + c;
    forall j | 0 <= j < |d| ensures d[j].next == Successor(d, j) {
      if j > 0 {
        assert d[j] == c[j - 1];
        assert c[j - 1].next == Successor(c, j - 1);
      }
    }
  }

  class FlowTable {
    const buckets: array<FlowEntry?>
    const ndpi: NdpiHeap
    var count: nat
    var totalCreated: nat
    ghost var chains: seq<seq<FlowEntry>>
    ghost var index: map<Key, FlowEntry>

    // Each key once, in its own bucket; the counter is the size of the map.
    ghost predicate Valid()
      reads `count, `chains, `index, buckets, index.Values
    {
      Shaped() && forall k :: k in index ==> index[k].flow.key == k
    }

    ghost predicate Shaped()
      reads `count, `chains, `index, buckets, index.Values`next
    {
      && buckets.Length == BUCKETS == |chains|
      && count == |index|
      && Filed(index, chains)
      && (forall i :: 0 <= i < BUCKETS ==> ChainOk(i))
    }

    ghost predicate ChainOk(i: nat)
      requires i < buckets.Length == |chains|
      reads `chains, `index, buckets, index.Values`next
    {
      Members(chains[i], index, i) && Linked(chains[i], buckets[i])
    }

    // The map the table stands for.
    ghost function View(): map<Key, Flow>
      reads `index, index.Values
    {
      map k | k in index :: index[k].flow
    }

    ghost predicate Owned()
      reads `index, index.Values, ndpi
    {
      OwnedBy(View(), ndpi.live, ndpi.made)
    }

    constructor ()
      ensures Valid() && Owned() && fresh(buckets) && fresh(ndpi)
      ensures View() == map[] && totalCreated == 0 && index == map[] && ndpi.live == {} && ndpi.made == 0
    {
      buckets := new FlowEntry?[BUCKETS](_ => null);
      ndpi := new NdpiHeap();
      count, totalCreated := 0, 0;
      chains := seq(BUCKETS, _ => []);
      index := map[];
      new;
      NothingHeld(0);
    }

    method Lookup(k: Key) returns (e: FlowEntry?)
      requires Valid()
      ensures e == if k in index then index[k] else null
    {
      hide Hash, ChainOk, Members, Linked, KeyBytes;
      var idx := Hash(k);
      ghost var c, j: nat := chains[idx], 0;
      ChainMembers(idx);
      e := buckets[idx];
      while e != null
        invariant 0 <= j <= |c| && e == if j < |c| then c[j] else null
        invariant forall l :: 0 <= l < j ==> c[l].key != k
        decreases |c| - j
      {
        MemberIsIndexed(c, index, idx, j);
        KeyBytesInjective(e.key, k);
        if KeyBytes(e.key) == KeyBytes(k) { return; }
        e := e.next;
        j := j + 1;
      }
    }

    method GetOrCreate(k: Key, now: U32, allocOk: bool) returns (e: FlowEntry?)
      requires Valid()
      modifies this, buckets
      ensures Valid()
      ensures k in old(index) ==> e == old(index)[k] && index == old(index) && totalCreated == old(totalCreated)
      ensures k !in old(index) && !allocOk ==> e == null && index == old(index) && totalCreated == old(totalCreated)
      ensures k !in old(index) && allocOk ==>
        && e != null && fresh(e) && e.flow == NewFlow(k, now)
        && index == old(index)[k := e] && totalCreated == old(totalCreated) + 1
    {
      hide Hash, NewFlow;
      KeyOfNewFlow(k, now);
      e := Lookup(k);
      if e != null { return; }
      if !allocOk { return; }
      e := Push(k, NewFlow(k, now));
      totalCreated := totalCreated + 1;
    }

    // A new entry goes to the front of its chain.
    method Push(k: Key, f: Flow) returns (e: FlowEntry)
      requires Valid() && k !in index && f.key == k
      modifies this`count, this`chains, this`index, buckets
      ensures Valid() && fresh(e) && e.flow == f && index == old(index)[k := e]
    {
      hide Hash, Members, Linked, Filed;
      var idx := Hash(k);
      assert ChainOk(idx);
      e := new FlowEntry(k, f, buckets[idx]);
      buckets[idx] := e;
      count := count + 1;
      ghost var c := chains[idx];
      chains := chains[idx := [e] + c];
      index := index[k := e];
      forall i | 0 <= i < BUCKETS ensures ChainOk(i) {
        assert old(ChainOk(i));
        MembersOfLarger(old(chains[i]), old(index), i, e);
        if i == idx {
          LinkedLonger(c, e);
        }
      }
      InChains(old(index), old(chains), idx, e);
    }

    // Writes an entry's data back.
    method Store(e: FlowEntry, f: Flow)
      requires Valid() && e.key in index && index[e.key] == e && f.key == e.key
      modifies e`flow
      ensures Valid() && e.flow == f
      ensures View() == old(View())[e.key := f]
    {
      hide Shaped;
      KeysOfEntries();
      e.flow := f;
    }

    // Relinks around entry j of chain i, frees its nDPI state and drops it.
    method Unlink(i: nat, ghost j: nat, prev: FlowEntry?, dead: FlowEntry)
      requires Valid() && Owned() && i < BUCKETS && j < |chains[i]|
      requires chains[i][j] == dead && prev == (if j == 0 then null else chains[i][j - 1])
      modifies `count, `chains, `index, buckets, ndpi`live, (if prev == null then {} else {prev})`next
      ensures Valid() && Owned()
      ensures chains == old(chains)[i := old(chains)[i][..j] + old(chains)[i][j + 1..]]
      ensures index == old(index) - {dead.key} && dead.key in old(index) && old(index)[dead.key] == dead
      ensures View() == old(View()) - {dead.key} && dead.key in old(View()) && old(View())[dead.key] == dead.flow
      ensures ndpi.live == old(ndpi.live) - HandlesOf(dead.flow)
    {
      hide Hash, Members, OwnedBy, Linked, Shaped, ChainOk, View, Valid, Filed, Successor, Idle, NewFlow;
      ChainMembers(i);
      MemberIsIndexed(chains[i], index, i, j);
      ViewAt(dead.key);
      ViewIs();
      EntryLeaves(View(), ndpi.live, ndpi.made, dead.key);
      HeldIsLive(View(), ndpi.live, ndpi.made, dead.key);
      Relink(i, j, prev, dead);
      if dead.flow.ndpi.Some? {
        ndpi.Free(dead.flow.ndpi.value);
      }
      assert ndpi.live == old(ndpi.live) - HandlesOf(dead.flow);
      ViewShrinks(dead.key, old(index), old(View()));
    }

    lemma ViewAt(k: Key)
      requires k in index
      ensures k in View() && View()[k] == index[k].flow
    {
    }

    lemma ViewShrinks(k: Key, before: map<Key, FlowEntry>, view: map<Key, Flow>)
      requires index == before - {k}
      requires view.Keys == before.Keys && forall l :: l in before ==> before[l].flow == view[l]
      ensures View() == view - {k}
    {
    }

    lemma ViewIs()
      ensures View().Keys == index.Keys && forall l :: l in index ==> index[l].flow == View()[l]
    {
    }

    method Relink(i: nat, ghost j: nat, prev: FlowEntry?, dead: FlowEntry)
      requires Valid() && i < BUCKETS && j < |chains[i]|
      requires chains[i][j] == dead && prev == (if j == 0 then null else chains[i][j - 1])
      modifies `count, `chains, `index, buckets, (if prev == null then {} else {prev})`next
      ensures Valid()
      ensures chains == old(chains)[i := old(chains)[i][..j] + old(chains)[i][j + 1..]]
      ensures index == old(index) - {dead.key}
    {
      hide *;
      ghost var next := map n | n in index.Values :: n.next;
      Snapshot(next);
      ChainMembers(i);
      FlowKeys();
      Rewire(i, j, prev, dead, next);
      Reshaped(old(chains), old(index), old(buckets[..]), next, i, j);
      ValidIf();
    }

    method Rewire(i: nat, ghost j: nat, prev: FlowEntry?, dead: FlowEntry, ghost next: map<FlowEntry, FlowEntry?>)
      requires buckets.Length == BUCKETS == |chains| && i < BUCKETS && j < |chains[i]|
      requires chains[i][j] == dead && prev == (if j == 0 then null else chains[i][j - 1])
      requires count == |index| && Members(chains[i], index, i) && next == map n | n in index.Values :: n.next
      modifies `count, `chains, `index, buckets, (if prev == null then {} else {prev})`next
      ensures chains == old(chains)[i := old(chains)[i][..j] + old(chains)[i][j + 1..]]
      ensures index == old(index) - {dead.key} && count == |index|
      ensures Bypassed(old(index), next, old(chains)[i], j)
      ensures buckets[..] == if j == 0 then old(buckets[..])[i := next[old(chains)[i][j]]] else old(buckets[..])
    {
      hide Hash, Members;
      MemberIsIndexed(chains[i], index, i, j);
      if j > 0 {
        MemberIsIndexed(chains[i], index, i, j - 1);
      }
      Tally.Shrinks(index, dead.key);
      if prev == null {
        buckets[i] := dead.next;
      } else {
        prev.next := dead.next;
      }
      count := count - 1;
      index := index - {dead.key};
      chains := chains[i := chains[i][..j] + chains[i][j + 1..]];
    }

    lemma FlowKeys()
      requires Valid()
      ensures forall k :: k in index ==> index[k].flow.key == k
    {
    }

    lemma ValidIf()
      requires Shaped() && forall k :: k in index ==> index[k].flow.key == k
      ensures Valid()
    {
    }

    lemma Snapshot(next: map<FlowEntry, FlowEntry?>)
      requires Valid() && next == map n | n in index.Values :: n.next
      ensures Was(chains, index, buckets[..], next)
    {
      hide Hash, Members;
      forall l | 0 <= l < BUCKETS ensures WasChain(chains[l], index, l, buckets[..][l], next) {
        assert ChainOk(l);
        forall m | 0 <= m < |chains[l]| ensures chains[l][m] in index.Values {
          MemberIsIndexed(chains[l], index, l, m);
        }
      }
    }

    // The table is in shape again once entry j of chain i has been bypassed.
    lemma Reshaped(chains0: seq<seq<FlowEntry>>, index0: map<Key, FlowEntry>, heads: seq<FlowEntry?>,
                   next: map<FlowEntry, FlowEntry?>, i: nat, j: nat)
      requires Was(chains0, index0, heads, next) && i < BUCKETS && j < |chains0[i]|
      requires buckets.Length == BUCKETS && count == |index|
      requires Bypassed(index0, next, chains0[i], j)
      requires buckets[..] == if j == 0 then heads[i := next[chains0[i][j]]] else heads
      requires index == index0 - {chains0[i][j].key}
      requires chains == chains0[i := chains0[i][..j] + chains0[i][j + 1..]]
      requires Filed(index0, chains0)
      ensures Shaped()
    {
      hide Hash, WasChain, Bypassed, Linked, Members, Filed;
      StillInChains(index0, chains0, i, j);
      forall l | 0 <= l < BUCKETS ensures ChainOk(l) {
        assert buckets[l] == buckets[..][l];
        assert WasChain(chains0[l], index0, l, heads[l], next);
        WasMembers(chains0[i], index0, i, heads[i], next);
        WasMembers(chains0[l], index0, l, heads[l], next);
        if l == i {
          MembersWithout(chains0[i], index0, i, j);
          BypassedLinks(chains0[i], index0, i, heads[i], next, j, buckets[i]);
        } else {
          UntouchedLinks(chains0[l], index0, l, heads[l], next, chains0[i], i, j);
          MemberIsIndexed(chains0[i], index0, i, j);
          OutsideChain(chains0[l], index0, l, chains0[i][j]);
          MembersOfSmaller(chains0[l], index0, l, chains0[i][j]);
        }
      }
    }

    lemma TableSize()
      requires Valid()
      ensures buckets.Length == BUCKETS == |chains| > 0
    {
    }

    lemma KeysOfEntries()
      requires Valid()
      ensures forall k :: k in index ==> index[k].key == k
    {
    }

    lemma ChainMembers(i: nat)
      requires Valid() && i < BUCKETS
      ensures buckets.Length == BUCKETS == |chains| && count == |index| && Filed(index, chains)
      ensures Members(chains[i], index, i)
      ensures buckets[i] == (if chains[i] == [] then null else chains[i][0])
      ensures forall j :: 0 <= j < |chains[i]| ==> chains[i][j].next == Successor(chains[i], j)
    {
      hide Hash, Members;
      assert ChainOk(i);
    }

    // Walks a chain with the link before the entry at hand.
    method Find(k: Key) returns (ghost j: nat, prev: FlowEntry?, cur: FlowEntry?)
      requires Valid()
      ensures k in index ==>
        && Hash(k) < |chains| && j < |chains[Hash(k)]| && chains[Hash(k)][j] == cur == index[k] && index[k].key == k
        && prev == (if j == 0 then null else chains[Hash(k)][j - 1])
        && (prev != null ==> prev in index.Values)
      ensures k !in index ==> cur == null
    {
      hide Hash, ChainOk, Members, KeyBytes;
      var idx := Hash(k);
      ghost var c := chains[idx];
      ChainMembers(idx);
      j := 0;
      prev, cur := null, buckets[idx];
      while cur != null
        invariant 0 <= j <= |c| && cur == (if j < |c| then c[j] else null)
        invariant prev == if j == 0 then null else c[j - 1]
        invariant forall l :: 0 <= l < j ==> c[l].key != k
        decreases |c| - j
      {
        MemberIsIndexed(c, index, idx, j);
        KeyBytesInjective(cur.key, k);
        if KeyBytes(cur.key) == KeyBytes(k) {
          if j > 0 {
            MemberIsIndexed(c, index, idx, j - 1);
          }
          return;
        }
        prev, cur := cur, cur.next;
        j := j + 1;
      }
    }

    method Remove(k: Key)
      requires Valid() && Owned()
      modifies this, buckets, ndpi, index.Values`next
      ensures Valid() && Owned() && index.Values <= old(index.Values)
      ensures View() == old(View()) - {k}
      ensures ndpi.live == old(ndpi.live) - if k in old(View()) then HandlesOf(old(View())[k]) else {}
    {
      hide *;
      ViewIs();
      ghost var j;
      var prev, cur;
      TableSize();
      j, prev, cur := Find(k);
      if cur == null {
        assert View() - {k} == View();
      } else {
        assert cur.key == k;
        AllWithin(index);
        WithinLess(index, index, k);
        Unlink(Hash(k), j, prev, cur);
        WithinValues(index, old(index));
      }
    }

    // The cursor of a walk: an entry of chain i and the one before it.
    ghost predicate Cursor(i: nat, j: nat, prev: FlowEntry?, cur: FlowEntry?)
      reads `chains
    {
      && i < |chains| == BUCKETS && j <= |chains[i]|
      && cur == (if j < |chains[i]| then chains[i][j] else null)
      && prev == (if j == 0 then null else chains[i][j - 1])
    }

    // What a walk has done so far to the table that stood for `before`.
    ghost predicate Swept(before: map<Key, Flow>, index0: map<Key, FlowEntry>, calls: seq<Flow>, now: U32)
      reads `count, `chains, `index, buckets, index.Values, ndpi
    {
      Valid() && Owned() && Expired(before, View(), calls, now) && Within(index, index0)
    }

    lemma WalkStart(i: nat, now: U32)
      requires Valid() && Owned() && i < BUCKETS
      ensures Swept(View(), index, [], now) && buckets.Length == BUCKETS && Cursor(i, 0, null, buckets[i])
    {
      hide *;
      ChainMembers(i);
      StartWalk(i, now);
    }

    lemma StartWalk(i: nat, now: U32)
      requires Valid() && Owned() && i < |chains| == BUCKETS == buckets.Length
      requires buckets[i] == (if chains[i] == [] then null else chains[i][0])
      ensures Swept(View(), index, [], now) && Cursor(i, 0, null, buckets[i])
    {
      hide Valid, Owned, View;
      NothingExpired(View(), now);
    }

    lemma AtCursor(i: nat, j: nat, prev: FlowEntry?, cur: FlowEntry?, before: map<Key, Flow>,
                   index0: map<Key, FlowEntry>, calls: seq<Flow>, now: U32)
      requires Swept(before, index0, calls, now) && Cursor(i, j, prev, cur) && cur != null
      ensures j < |chains[i]| && chains[i][j] == cur && prev == (if j == 0 then null else chains[i][j - 1])
      ensures Valid() && Owned() && cur in index0.Values && (prev != null ==> prev in index0.Values)
      ensures cur.next == Successor(chains[i], j)
      ensures cur.key in View() && View()[cur.key] == cur.flow && cur.flow.key == cur.key
    {
      hide Valid, Owned, View, Hash, Members, Expired, Within;
      ChainMembers(i);
      MemberIsIndexed(chains[i], index, i, j);
      InsideOld(index, index0, cur);
      if j > 0 {
        MemberIsIndexed(chains[i], index, i, j - 1);
        InsideOld(index, index0, prev);
      }
      ViewIs();
      FlowKeys();
    }

    // The body of the sweep's inner loop: one entry is expired or kept.
    method AgeOne(i: nat, ghost j: nat, prev: FlowEntry?, cur: FlowEntry, now: U32, calls: seq<Flow>,
                  ghost before: map<Key, Flow>, ghost index0: map<Key, FlowEntry>)
      returns (ghost j': nat, prev': FlowEntry?, cur': FlowEntry?, calls': seq<Flow>)
      requires Swept(before, index0, calls, now) && Cursor(i, j, prev, cur)
      requires forall l :: 0 <= l < j ==> !EngineModel.Idle(chains[i][l].flow, now)
      modifies `count, `chains, `index, buckets, ndpi`live, (if prev == null then {} else {prev})`next
      ensures Swept(before, index0, calls', now) && Cursor(i, j', prev', cur')
      ensures forall l :: 0 <= l < j' ==> !EngineModel.Idle(chains[i][l].flow, now)
      ensures |chains[i]| - j' == old(|chains[i]|) - j - 1
    {
      hide Valid, Owned, View, Hash, Members, Expired, Within, EngineModel.Idle, Successor;
      AtCursor(i, j, prev, cur, before, index0, calls, now);
      NextAfter(chains[i], j);
      if EngineModel.Idle(cur.flow, now) {
        ExpiredMore(before, View(), calls, now, cur.key);
        calls' := calls + [cur.flow];
        var after := cur.next;
        WithinLess(index, index0, cur.key);
        Unlink(i, j, prev, cur);
        j', prev', cur' := j, prev, after;
      } else {
        j', prev', cur', calls' := j + 1, cur, cur.next, calls;
      }
    }

    // Expires the idle entries of one chain; the result lists the callback's
    // arguments, in order.
    method AgeBucket(i: nat, now: U32) returns (calls: seq<Flow>)
      requires Valid() && Owned() && i < BUCKETS
      modifies `count, `chains, `index, buckets, ndpi`live, index.Values`next
      ensures Swept(old(View()), old(index), calls, now)
      ensures forall k :: k in View() && Hash(k) == i ==> !EngineModel.Idle(View()[k], now)
    {
      hide *;
      WalkStart(i, now);
      calls := [];
      ghost var j: nat := 0;
      var prev: FlowEntry?, cur := null, buckets[i];
      CursorMeans(i, j, prev, cur);
      while cur != null
        invariant Swept(old(View()), old(index), calls, now) && Cursor(i, j, prev, cur)
        invariant i < |chains| && j <= |chains[i]|
        invariant forall l :: 0 <= l < j ==> !EngineModel.Idle(chains[i][l].flow, now)
        decreases |chains[i]| - j
      {
        AtCursor(i, j, prev, cur, old(View()), old(index), calls, now);
        j, prev, cur, calls := AgeOne(i, j, prev, cur, now, calls, old(View()), old(index));
        CursorMeans(i, j, prev, cur);
      }
      CursorMeans(i, j, prev, cur);
      SweptMeans(old(View()), old(index), calls, now);
      BucketIsFresh(i, now);
    }

    lemma CursorMeans(i: nat, j: nat, prev: FlowEntry?, cur: FlowEntry?)
      requires Cursor(i, j, prev, cur)
      ensures i < |chains| == BUCKETS && j <= |chains[i]| && (cur == null ==> j == |chains[i]|)
    {
    }

    lemma SweptMeans(before: map<Key, Flow>, index0: map<Key, FlowEntry>, calls: seq<Flow>, now: U32)
      requires Swept(before, index0, calls, now)
      ensures Valid() && Owned() && Expired(before, View(), calls, now) && Within(index, index0)
    {
      hide Valid, Owned, View, Expired, Within;
    }

    lemma BucketIsFresh(i: nat, now: U32)
      requires Valid() && i < BUCKETS
      requires forall l :: 0 <= l < |chains[i]| ==> !EngineModel.Idle(chains[i][l].flow, now)
      ensures forall k :: k in View() && Hash(k) == i ==> !EngineModel.Idle(View()[k], now)
    {
      hide Hash, Idle, Members, Linked, ChainOk;
    }

    // One sweep over the whole table.
    method Age(now: U32) returns (calls: seq<Flow>)
      requires Valid() && Owned()
      modifies `count, `chains, `index, buckets, ndpi`live, index.Values`next
      ensures Valid() && Owned() && index.Values <= old(index.Values)
      ensures Expired(old(View()), View(), calls, now)
      ensures forall k :: k in View() ==> !EngineModel.Idle(View()[k], now)
      ensures forall c :: c in calls ==> now as int - c.lastSeen as int > if c.key.proto == 6 then 300 else 30
      ensures forall k :: k in index ==>
        now as int - index[k].flow.lastSeen as int <= if k.proto == 6 then 300 else 30
    {
      hide *;
      calls := [];
      NothingExpired(View(), now);
      AllWithin(index);
      var i := 0;
      while i < BUCKETS
        invariant i <= BUCKETS && Valid() && Owned()
        invariant Expired(old(View()), View(), calls, now)
        invariant Within(index, old(index))
        invariant forall k :: k in View() && Hash(k) < i ==> !EngineModel.Idle(View()[k], now)
      {
        ghost var mid, index0 := View(), index;
        WithinValues(index, old(index));
        var gone := AgeBucket(i, now);
        SweptMeans(mid, index0, gone, now);
        WithinTrans(index, index0, old(index));
        ExpiredTwice(old(View()), mid, View(), calls, gone, now);
        StillThere(mid, View(), gone, now);
        calls := calls + gone;
        i := i + 1;
      }
      HashIsBucket();
      WithinValues(index, old(index));
      ExpiredInNumbers(old(View()), View(), calls, now);
      FreshInNumbers(now);
    }

    lemma FreshInNumbers(now: U32)
      requires Valid() && forall k :: k in View() ==> !EngineModel.Idle(View()[k], now)
      ensures forall k :: k in index ==>
        now as int - index[k].flow.lastSeen as int <= if k.proto == 6 then 300 else 30
    {
      hide Shaped;
      forall k | k in index
        ensures now as int - index[k].flow.lastSeen as int <= if k.proto == 6 then 300 else 30
      {
        ViewAt(k);
        assert !EngineModel.Idle(View()[k], now);
      }
    }

    // Frees the nDPI state of one chain, entry by entry.
    method DestroyBucket(i: nat, ghost view: map<Key, Flow>, ghost rest: map<Key, Flow>)
      returns (ghost left: map<Key, Flow>)
      requires Valid() && view == View() && i < BUCKETS
      requires OwnedBy(rest, ndpi.live, ndpi.made) && Holding(rest, view, chains[i], i, 0)
      modifies ndpi`live
      ensures OwnedBy(left, ndpi.live, ndpi.made) && Holding(left, view, chains[i], i, |chains[i]|)
    {
      hide *;
      left := rest;
      ghost var j: nat := 0;
      ChainMembers(i);
      ViewIs();
      var e := buckets[i];
      while e != null
        invariant j <= |chains[i]| && e == (if j < |chains[i]| then chains[i][j] else null)
        invariant OwnedBy(left, ndpi.live, ndpi.made) && Holding(left, view, chains[i], i, j)
        decreases |chains[i]| - j
      {
        MemberIsIndexed(chains[i], index, i, j);
        HeldHere(left, view, chains[i], index, i, j);
        var next := e.next;
        NextAfter(chains[i], j);
        EntryLeaves(left, ndpi.live, ndpi.made, e.key);
        HeldIsLive(left, ndpi.live, ndpi.made, e.key);
        ghost var live := ndpi.live;
        if e.flow.ndpi.Some? {
          ndpi.Free(e.flow.ndpi.value);
        }
        Freed(e.flow, live, ndpi.live);
        left := left - {e.key};
        e := next;
        j := j + 1;
      }
    }

    // Empties the table; no callbacks.
    method Destroy()
      requires Valid() && Owned()
      modifies `count, `chains, `index, buckets, ndpi`live
      ensures Valid() && Owned() && index == map[]
      ensures View() == map[] && ndpi.live == {}
    {
      hide *;
      ghost var view, left := View(), View();
      OwnedMeans();
      TableSize();
      ViewIs();
      HoldingAll(view, chains[0]);
      var i: nat := 0;
      while i < BUCKETS
        invariant i <= BUCKETS == |chains| && Valid() && view == View()
        invariant OwnedBy(left, ndpi.live, ndpi.made)
        invariant i < BUCKETS ==> Holding(left, view, chains[i], i, 0)
        invariant i == BUCKETS ==> left == map[]
      {
        left := DestroyBucket(i, view, left);
        ViewIs();
        ChainMembers(i);
        BucketGone(left, view, chains, index, i);
        i := i + 1;
      }
      OwnsNothing(ndpi.live, ndpi.made);
      Clear();
    }

    // Every bucket becomes null.
    method Clear()
      requires Valid() && ndpi.live == {}
      modifies `count, `chains, `index, buckets
      ensures Valid() && Owned() && View() == map[] && index == map[]
    {
      hide Hash, OwnedBy, Members, Linked, Filed;
      var i := 0;
      while i < BUCKETS
        invariant i <= BUCKETS && forall l :: 0 <= l < i ==> buckets[l] == null
      {
        buckets[i] := null;
        i := i + 1;
      }
      count := 0;
      index := map[];
      chains := seq(BUCKETS, _ => []);
      EmptyTable(chains);
      NothingHeld(ndpi.made);
    }

    lemma OwnedMeans()
      requires Owned()
      ensures OwnedBy(View(), ndpi.live, ndpi.made)
    {
    }
  }

  // What the table still holds while it is freed bucket by bucket: the entries of
  // bucket i, whose chain is c, from position j on, and all later buckets.
  ghost predicate Holding(left: map<Key, Flow>, view: map<Key, Flow>, c: seq<FlowEntry>, i: nat, j: nat) {
    && j <= |c|
    && (forall k :: k in left <==> k in view && Hash(k) >= i && forall l :: 0 <= l < j ==> c[l].key != k)
    && (forall k :: k in left ==> left[k] == view[k])
  }

  lemma HoldingAll(view: map<Key, Flow>, c: seq<FlowEntry>)
    ensures Holding(view, view, c, 0, 0)
  {
    hide Hash;
  }

  lemma HeldHere(left: map<Key, Flow>, view: map<Key, Flow>, c: seq<FlowEntry>, index: map<Key, FlowEntry>,
                 i: nat, j: nat)
    requires Holding(left, view, c, i, j) && Members(c, index, i) && j < |c| && view.Keys == index.Keys
    ensures c[j].key in left && left[c[j].key] == view[c[j].key]
    ensures Holding(left - {c[j].key}, view, c, i, j + 1)
  {
    hide Hash;
  }

  lemma BucketGone(left: map<Key, Flow>, view: map<Key, Flow>, chains: seq<seq<FlowEntry>>,
                   index: map<Key, FlowEntry>, i: nat)
    requires i < BUCKETS && Filed(index, chains) && Members(chains[i], index, i) && view.Keys == index.Keys
    requires Holding(left, view, chains[i], i, |chains[i]|)
    ensures i + 1 < BUCKETS ==> Holding(left, view, chains[i + 1], i + 1, 0)
    ensures i + 1 == BUCKETS ==> left == map[]
  {
    hide Hash, Members;
    var c := chains[i];
    forall k ensures k in left <==> k in view && Hash(k) >= i + 1 {
      if k in view && Hash(k) == i {
        assert index[k] in c;
        var l :| 0 <= l < |c| && c[l] == index[k];
        assert c[l].key == k;
      }
      if k in view && Hash(k) >= i + 1 {
        forall l | 0 <= l < |c| ensures c[l].key != k {
          MemberIsIndexed(c, index, i, l);
        }
      }
    }
    HashIsBucket();
  }

  lemma EmptyTable(chains: seq<seq<FlowEntry>>)
    requires |chains| == BUCKETS && forall i :: 0 <= i < BUCKETS ==> chains[i] == []
    ensures Filed(map[], chains)
    ensures forall i :: 0 <= i < BUCKETS ==> Members(chains[i], map[], i) && Linked(chains[i], null)
  {
    hide Hash;
  }

  lemma OwnsNothing(live: set<nat>, made: nat)
    requires OwnedBy(map[], live, made)
    ensures live == {}
  {
  }

  // ---- Sweeps, as seen on the map ------------------------------------------

  // Some idle flows have left the map, each exactly once.
  ghost predicate Expired(before: map<Key, Flow>, after: map<Key, Flow>, calls: seq<Flow>, now: U32) {
    && after == before - (set c | c in calls :: c.key)
    && (forall a, b :: 0 <= a < b < |calls| ==> calls[a].key != calls[b].key)
    && (forall c :: c in calls ==> c.key in before && before[c.key] == c && EngineModel.Idle(c, now))
  }

  lemma Freed(f: Flow, before: set<nat>, after: set<nat>)
    requires after == if f.ndpi.Some? then before - {f.ndpi.value} else before
    ensures after == before - HandlesOf(f)
  {
  }

  lemma ExpiredInNumbers(before: map<Key, Flow>, after: map<Key, Flow>, calls: seq<Flow>, now: U32)
    requires Expired(before, after, calls, now)
    ensures forall c :: c in calls ==> now as int - c.lastSeen as int > if c.key.proto == 6 then 300 else 30
  {
  }

  lemma NothingExpired(m: map<Key, Flow>, now: U32)
    ensures Expired(m, m, [], now)
  {
  }

  lemma ExpiredMore(before: map<Key, Flow>, after: map<Key, Flow>, calls: seq<Flow>, now: U32, k: Key)
    requires Expired(before, after, calls, now)
    requires k in after && after[k].key == k && EngineModel.Idle(after[k], now)
    ensures Expired(before, after - {k}, calls + [after[k]], now)
  {
    hide Idle;
    var more := calls + [after[k]];
    assert forall c :: c in more <==> c in calls || c == after[k];
    assert (set c | c in more :: c.key) == (set c | c in calls :: c.key) + {k};
  }

  lemma ExpiredTwice(before: map<Key, Flow>, mid: map<Key, Flow>, after: map<Key, Flow>,
                     first: seq<Flow>, second: seq<Flow>, now: U32)
    requires Expired(before, mid, first, now) && Expired(mid, after, second, now)
    ensures Expired(before, after, first + second, now)
  {
    hide Idle;
    var all := first + second;
    assert forall c :: c in all <==> c in first || c in second;
    assert (set c | c in all :: c.key) == (set c | c in first :: c.key) + (set c | c in second :: c.key);
    forall a, b | 0 <= a < b < |all| ensures all[a].key != all[b].key {
      if a < |first| <= b {
        assert all[b] in second;
      }
    }
  }

  lemma StillThere(before: map<Key, Flow>, after: map<Key, Flow>, calls: seq<Flow>, now: U32)
    requires Expired(before, after, calls, now)
    ensures forall k :: k in after ==> k in before && after[k] == before[k]
  {
  }

  lemma HashIsBucket()
    ensures forall k :: Hash(k) < BUCKETS
  {
  }

  ghost predicate Within(index: map<Key, FlowEntry>, wider: map<Key, FlowEntry>) {
    forall k :: k in index ==> k in wider && index[k] == wider[k]
  }

  lemma AllWithin(index: map<Key, FlowEntry>)
    ensures Within(index, index)
  {
  }

  lemma InsideOld(index: map<Key, FlowEntry>, wider: map<Key, FlowEntry>, e: FlowEntry)
    requires Within(index, wider) && e.key in index && index[e.key] == e
    ensures e in wider.Values
  {
  }

  lemma WithinLess(index: map<Key, FlowEntry>, wider: map<Key, FlowEntry>, k: Key)
    requires Within(index, wider)
    ensures Within(index - {k}, wider)
  {
  }

  lemma WithinTrans(index: map<Key, FlowEntry>, mid: map<Key, FlowEntry>, wider: map<Key, FlowEntry>)
    requires Within(index, mid) && Within(mid, wider)
    ensures Within(index, wider)
  {
  }

  lemma WithinValues(index: map<Key, FlowEntry>, wider: map<Key, FlowEntry>)
    requires Within(index, wider)
    ensures index.Values <= wider.Values
  {
  }

  lemma NextAfter(c: seq<FlowEntry>, j: nat)
    requires j < |c|
    ensures Successor(c, j) == (if j + 1 < |c| then c[j + 1] else null)
    ensures j < |c[..j] + c[j + 1..]| ==> (c[..j] + c[j + 1..])[j] == c[j + 1]
    ensures forall l :: 0 <= l < j ==> (c[..j] + c[j + 1..])[l] == c[l]
    ensures |c[..j] + c[j + 1..]| == |c| - 1
  {
  }

  // Chain l as it stood when the links were `next`.
  ghost predicate WasChain(c: seq<FlowEntry>, index: map<Key, FlowEntry>, l: nat, head: FlowEntry?,
                           next: map<FlowEntry, FlowEntry?>) {
    && Members(c, index, l) && head == (if c == [] then null else c[0])
    && forall m :: 0 <= m < |c| ==> c[m] in next && next[c[m]] == Successor(c, m)
  }

  ghost predicate Was(chains: seq<seq<FlowEntry>>, index: map<Key, FlowEntry>, heads: seq<FlowEntry?>,
                      next: map<FlowEntry, FlowEntry?>) {
    && |chains| == |heads| == BUCKETS
    && forall l :: 0 <= l < BUCKETS ==> WasChain(chains[l], index, l, heads[l], next)
  }

  lemma WasMembers(c: seq<FlowEntry>, index: map<Key, FlowEntry>, l: nat, head: FlowEntry?,
                   next: map<FlowEntry, FlowEntry?>)
    requires WasChain(c, index, l, head, next)
    ensures Members(c, index, l)
  {
  }

  // Every link is as it was, except that the entry before position j of c, if
  // there is one, now points past it.
  ghost predicate Bypassed(index: map<Key, FlowEntry>, next: map<FlowEntry, FlowEntry?>, c: seq<FlowEntry>, j: nat)
    requires j < |c|
    reads index.Values`next
  {
    && c[j] in next
    && forall n :: n in index.Values ==>
         n in next && n.next == if j > 0 && n == c[j - 1] then next[c[j]] else next[n]
  }

  lemma BypassedLinks(c: seq<FlowEntry>, index: map<Key, FlowEntry>, i: nat, head: FlowEntry?,
                      next: map<FlowEntry, FlowEntry?>, j: nat, head': FlowEntry?)
    requires WasChain(c, index, i, head, next) && j < |c|
    requires Bypassed(index, next, c, j)
    requires head' == if j == 0 then next[c[j]] else head
    ensures Linked(c[..j] + c[j + 1..], head')
  {
    hide Hash, Members;
    MembersDiffer(c, index, i);
    forall m | 0 <= m < |c| ensures c[m] in index.Values {
      MemberIsIndexed(c, index, i, m);
    }
    LinkedWithout(c, j, head');
  }

  lemma UntouchedLinks(c: seq<FlowEntry>, index: map<Key, FlowEntry>, l: nat, head: FlowEntry?,
                       next: map<FlowEntry, FlowEntry?>, d: seq<FlowEntry>, i: nat, j: nat)
    requires WasChain(c, index, l, head, next) && Members(d, index, i) && i != l && j < |d|
    requires Bypassed(index, next, d, j)
    ensures Linked(c, head)
  {
    hide Hash, Members;
    if j > 0 {
      MemberIsIndexed(d, index, i, j - 1);
    }
    forall m | 0 <= m < |c| ensures c[m].next == Successor(c, m) {
      MemberIsIndexed(c, index, l, m);
    }
  }

  // ---- Chains and their neighbours -----------------------------------------

  lemma MemberIsIndexed(c: seq<FlowEntry>, index: map<Key, FlowEntry>, i: nat, j: nat)
    requires Members(c, index, i) && j < |c|
    ensures c[j].key in index && index[c[j].key] == c[j] && Hash(c[j].key) == i
  {
    hide Hash;
  }

  lemma MembersDiffer(c: seq<FlowEntry>, index: map<Key, FlowEntry>, i: nat)
    requires Members(c, index, i)
    ensures forall j, l :: 0 <= j < |c| && 0 <= l < |c| && j != l ==> c[j] != c[l]
  {
    hide Hash;
    forall j, l | 0 <= j < |c| && 0 <= l < |c| && j != l ensures c[j] != c[l] {
      if l < j {
        assert c[l] != c[j];
      }
    }
  }

  lemma OutsideChain(c: seq<FlowEntry>, index: map<Key, FlowEntry>, i: nat, n: FlowEntry)
    requires Members(c, index, i) && Hash(n.key) != i
    ensures n !in c
  {
    hide Hash;
  }

  lemma MembersOfSmaller(c: seq<FlowEntry>, index: map<Key, FlowEntry>, i: nat, dead: FlowEntry)
    requires Members(c, index, i) && dead !in c && dead.key in index && index[dead.key] == dead
    ensures Members(c, index - {dead.key}, i)
  {
    hide Hash;
    forall j | 0 <= j < |c|
      ensures c[j].key in index - {dead.key} && (index - {dead.key})[c[j].key] == c[j] && Hash(c[j].key) == i
    {
      assert c[j] in c;
    }
  }

  lemma MembersWithout(c: seq<FlowEntry>, index: map<Key, FlowEntry>, i: nat, j: nat)
    requires Members(c, index, i) && j < |c|
    ensures Members(c[..j] + c[j + 1..], index - {c[j].key}, i)
  {
    hide Hash;
    var d := c[..j] + c[j + 1..];
    assert forall l :: 0 <= l < |d| ==> d[l] == if l < j then c[l] else c[l + 1];
  }

  // After relinking: everything but the predecessor still points where it did.
  lemma LinkedWithout(c: seq<FlowEntry>, j: nat, head: FlowEntry?)
    requires j < |c| && head == (if j > 0 then c[0] else Successor(c, j))
    requires forall l :: 0 <= l < |c| && l != j - 1 ==> c[l].next == Successor(c, l)
    requires j > 0 ==> c[j - 1].next == Successor(c, j)
    ensures Linked(c[..j] + c[j + 1..], head)
  {
    var d := c[..j] + c[j + 1..];
    assert forall l :: 0 <= l < |d| ==> d[l] == if l < j then c[l] else c[l + 1];
    forall l | 0 <= l < |d| ensures d[l].next == Successor(d, l) {
      if l == j - 1 {
        assert c[l].next == Successor(c, j);
      } else {
        var m := if l < j then l else l + 1;
        assert c[m].next == Successor(c, m);
      }
    }
  }

  lemma StillInChains(index: map<Key, FlowEntry>, chains: seq<seq<FlowEntry>>, i: nat, j: nat)
    requires Filed(index, chains) && i < BUCKETS && j < |chains[i]|
    ensures Filed(index - {chains[i][j].key}, chains[i := chains[i][..j] + chains[i][j + 1..]])
  {
    hide Hash;
    var c := chains[i];
    var d := c[..j] + c[j + 1..];
    forall k | k in index - {c[j].key} ensures index[k] in chains[i := d][Hash(k)] {
      if Hash(k) == i {
        var l :| 0 <= l < |c| && c[l] == index[k];
        assert l != j;
        assert d[if l < j then l else l - 1] == c[l];
      }
    }
  }

  lemma HeldIsLive(flows: map<Key, Flow>, handles: set<nat>, made: nat, k: Key)
    requires OwnedBy(flows, handles, made) && k in flows
    ensures flows[k].ndpi.Some? ==> flows[k].ndpi.value in handles
  {
  }

  lemma InChains(index: map<Key, FlowEntry>, chains: seq<seq<FlowEntry>>, idx: nat, e: FlowEntry)
    requires Filed(index, chains) && idx == Hash(e.key)
    ensures Filed(index[e.key := e], chains[idx := [e] + chains[idx]])
  {
    hide Hash;
  }

  lemma KeyOfNewFlow(k: Key, now: U32)
    ensures NewFlow(k, now).key == k
  {
  }
}
