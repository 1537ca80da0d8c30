/** The unread deliveries of every reader, pushed in place and copied before a step so it can be undone. */
module BufferStore {
  import opened Basics
  import opened DataValues
  import opened Graphs
  import opened Steps
  import opened Readers

  /** One reader's unread deliveries, pushed in place. */
  class Buffer {
    const key: Key
    var items: seq<Sequenced>

    constructor (key: Key, items: seq<Sequenced>)
      ensures this.key == key && this.items == items
    {
      this.key := key;
      this.items := items;
    }
  }

  class Buffers {
    var table: map<Key, Buffer>
    /** What the buffers hold, by key. */
    ghost var contents: map<Key, seq<Sequenced>>

    /** Each key has a buffer of its own, which holds its contents. */
    ghost predicate Valid()
      reads this, table.Values
    {
      && table.Keys == contents.Keys
      && forall key :: key in table ==> table[key].key == key && table[key].items == contents[key]
    }

    constructor (saved: map<Key, seq<Sequenced>>)
      ensures Valid() && fresh(table.Values) && contents == saved
    {
      table := map[];
      contents := map[];
      new;
      Restore(saved);
    }

    /** Gives each key of `saved` a new buffer holding its deliveries, and no other key one. */
    method Restore(saved: map<Key, seq<Sequenced>>)
      modifies this
      ensures Valid() && contents == saved && fresh(table.Values)
    {
      table := map[];
      var left := saved.Keys;
      while left != {}
        invariant left <= saved.Keys && table.Keys == saved.Keys - left
        invariant forall key :: key in table ==> fresh(table[key]) && table[key].key == key && table[key].items == saved[key]
        decreases left
      {
        var key :| key in left;
        var buffer := new Buffer(key, saved[key]);
        table := table[key := buffer];
        left := left - {key};
      }
      contents := saved;
    }

    /** Copies every buffer, so that pushing to one later changes no copy. */
    method Saved() returns (saved: map<Key, seq<Sequenced>>)
      requires Valid()
      ensures saved == contents
    {
      saved := map[];
      var left := table.Keys;
      while left != {}
        invariant left <= table.Keys && saved.Keys == table.Keys - left
        invariant forall key :: key in saved ==> saved[key] == contents[key]
        decreases left
      {
        var key :| key in left;
        saved := saved[key := table[key].items];
        left := left - {key};
      }
    }

    method Push(key: Key, delivery: Sequenced)
      requires Valid() && key in contents
      modifies this`contents, table[key]
      ensures Valid() && contents == old(contents)[key := old(contents)[key] + [delivery]]
    {
      var buffer := table[key];
      buffer.items := buffer.items + [delivery];
      contents := contents[key := buffer.items];
    }

    /** Pushes a write to each reader of its node that reads every write. */
    method PushAll(list: seq<ReaderEntry>, delivery: Sequenced)
      requires Valid() && AllHeld(list, contents.Keys)
      modifies this`contents, table.Values
      ensures Valid() && contents == PushedTo(old(contents), list, delivery)
      ensures contents.Keys == old(contents.Keys)
    {
      for k := 0 to |list|
        invariant Valid() && contents.Keys == old(contents.Keys)
        invariant contents == PushedTo(old(contents), list[..k], delivery)
      {
        assert list[..k + 1][..k] == list[..k];
        if list[k].mode.Every? { Push(list[k].key, delivery); }
      }
      assert list[..|list|] == list;
    }

    /** Takes one read's unread deliveries, leaving it a new buffer. */
    method TakeOne(key: Key) returns (taken: seq<Sequenced>)
      requires Valid() && key in contents
      modifies this
      ensures Valid() && fresh(table.Values - old(table.Values))
      ensures taken == old(contents)[key] && contents == old(contents)[key := []]
    {
      taken := table[key].items;
      var buffer := new Buffer(key, []);
      table := table[key := buffer];
      contents := contents[key := []];
    }

    /** Takes read `j` of `reader`, those before it being taken already; one that is not buffered holds nothing. */
    method TakeRead(g: Graph, reader: Reader, j: nat, ghost s: State) returns (taken: seq<Pulled>)
      requires Valid() && j < |EdgesOf(g, reader)| && HoldsReadsOf(g, reader, s.buffers.Keys)
      requires contents == EmptiedBelow(s.buffers, reader, j)
      modifies this
      ensures Valid() && fresh(table.Values - old(table.Values))
      ensures contents == EmptiedBelow(s.buffers, reader, j + 1)
      ensures taken == ReadAt(g, s, reader, j)
    {
      EmptiedExactly(s.buffers, reader, j);
      taken := [];
      if EdgesOf(g, reader)[j].mode.Every? {
        var items := TakeOne(Key(reader, j));
        taken := AsInputs(j, items);
      }
    }

    /** Takes every read of `reader`, in the order they were declared. */
    method TakeReads(g: Graph, reader: Reader, n: nat, ghost s: State) returns (unmerged: seq<seq<Pulled>>)
      requires Valid() && s.buffers == contents && HoldsReadsOf(g, reader, contents.Keys) && n == |EdgesOf(g, reader)|
      modifies this
      ensures Valid() && fresh(table.Values - old(table.Values))
      ensures contents == EmptiedBelow(s.buffers, reader, n)
      ensures |unmerged| == n && forall j :: 0 <= j < n ==> unmerged[j] == ReadAt(g, s, reader, j)
    {
      unmerged := [];
      for j := 0 to n
        invariant Valid() && fresh(table.Values - old(table.Values))
        invariant contents == EmptiedBelow(s.buffers, reader, j)
        invariant |unmerged| == j && forall k :: 0 <= k < j ==> unmerged[k] == ReadAt(g, s, reader, k)
      {
        var taken := TakeRead(g, reader, j, s);
        unmerged := unmerged + [taken];
      }
    }

    /** Empties the buffers of `reader` and returns what they held, by order of writing. */
    method Take(g: Graph, reader: Reader, writeSeq: nat, ghost s: State) returns (pulled: seq<Pulled>)
      requires Valid() && s.buffers == contents && HoldsReadsOf(g, reader, contents.Keys)
      modifies this
      ensures Valid() && fresh(table.Values - old(table.Values))
      ensures contents == Emptied(s, reader).buffers
      ensures pulled == Merged(Gathered(g, s, reader, 0), writeSeq)
    {
      var taken := TakeReads(g, reader, |EdgesOf(g, reader)|, s);
      EmptiedAll(g, s, reader);
      FlattenedReads(g, s, reader, taken, |taken|);
      GatheredWhole(g, s, reader);
      assert taken[..|taken|] == taken;
      pulled := Merged(Flattened(taken), writeSeq);
    }
  }

  function Flattened(lists: seq<seq<Pulled>>): seq<Pulled> {
    if lists == [] then [] else Flattened(lists[..|lists| - 1]) + lists[|lists| - 1]
  }

  lemma {:induction false} FlattenedReads(g: Graph, s: State, reader: Reader, taken: seq<seq<Pulled>>, n: nat)
    requires n <= |taken| == |EdgesOf(g, reader)|
    requires forall j :: 0 <= j < |taken| ==> taken[j] == ReadAt(g, s, reader, j)
    ensures Flattened(taken[..n]) == GatheredBelow(g, s, reader, n)
  {
    if n > 0 {
      FlattenedReads(g, s, reader, taken, n - 1);
      assert taken[..n][..n - 1] == taken[..n - 1];
    }
  }
}
