/**
 * The document tree the builder returns to OCaml.
 *
 * The three node kinds are declared in the order of their OCaml constructor
 * tags: Scalar is tag 0, Collection tag 1, Structure tag 2. A slot of a
 * list or of a key/value pair holds an Option<Node>, because a nested read
 * can leave its result unset (the OCaml unit value) and the builder stores
 * it all the same.
 */
module Tree {

  datatype Option<+T> = None | Some(value: T)

  datatype Node =
    | Scalar(text: string)
    | Collection(items: seq<Option<Node>>)
    | Structure(entries: seq<Entry>)

  /** One key/value pair of a Structure; both sides are whole sub-trees. */
  datatype Entry = Entry(key: Option<Node>, value: Option<Node>)

  /**
   * The tree with every Collection and Structure list reversed, at every
   * depth. The builder prepends, so this is the relation between a document
   * in source order and the tree the builder returns for it.
   */
  function Mirror(n: Node): Node
    decreases n
  {
    match n
    case Scalar(_) => n
    case Collection(items) => Collection(MirrorItems(items))
    case Structure(entries) => Structure(MirrorEntries(entries))
  }

  function MirrorSlot(s: Option<Node>): Option<Node>
    decreases s
  {
    match s
    case None => None
    case Some(n) => Some(Mirror(n))
  }

  function MirrorItems(items: seq<Option<Node>>): seq<Option<Node>>
    decreases items
  {
    if items == [] then [] else MirrorItems(items[1..]) + [MirrorSlot(items[0])]
  }

  function MirrorEntry(e: Entry): Entry
    decreases e
  {
    Entry(MirrorSlot(e.key), MirrorSlot(e.value))
  }

  function MirrorEntries(entries: seq<Entry>): seq<Entry>
    decreases entries
  {
    if entries == [] then [] else MirrorEntries(entries[1..]) + [MirrorEntry(entries[0])]
  }

  lemma {:induction false} MirrorItemsAppend(a: seq<Option<Node>>, b: seq<Option<Node>>)
    ensures MirrorItems(a + b) == MirrorItems(b) + MirrorItems(a)
    decreases a
  {
    if a == [] {
      assert a + b == b;
    } else {
      assert (a + b)[1..] == a[1..] + b;
      assert (a + b)[0] == a[0];
      MirrorItemsAppend(a[1..], b);
    }
  }

  lemma {:induction false} MirrorEntriesAppend(a: seq<Entry>, b: seq<Entry>)
    ensures MirrorEntries(a + b) == MirrorEntries(b) + MirrorEntries(a)
    decreases a
  {
    if a == [] {
      assert a + b == b;
    } else {
      assert (a + b)[1..] == a[1..] + b;
      assert (a + b)[0] == a[0];
      MirrorEntriesAppend(a[1..], b);
    }
  }

  /** Reversing every list twice gives the tree back. */
  lemma {:induction false} MirrorTwice(n: Node)
    ensures Mirror(Mirror(n)) == n
    decreases n
  {
    match n
    case Scalar(_) =>
    case Collection(items) => MirrorItemsTwice(items);
    case Structure(entries) => MirrorEntriesTwice(entries);
  }

  lemma {:induction false} MirrorSlotTwice(s: Option<Node>)
    ensures MirrorSlot(MirrorSlot(s)) == s
    decreases s
  {
    match s
    case None =>
    case Some(n) => MirrorTwice(n);
  }

  lemma {:induction false} MirrorItemsTwice(items: seq<Option<Node>>)
    ensures MirrorItems(MirrorItems(items)) == items
    decreases items
  {
    if items != [] {
      var rest, last := MirrorItems(items[1..]), MirrorSlot(items[0]);
      MirrorItemsAppend(rest, [last]);
      assert MirrorItems([last]) == [MirrorSlot(last)] by {
        assert [last][1..] == [];
      }
      MirrorSlotTwice(items[0]);
      MirrorItemsTwice(items[1..]);
      assert items == [items[0]] + items[1..];
    }
  }

  lemma {:induction false} MirrorEntryTwice(e: Entry)
    ensures MirrorEntry(MirrorEntry(e)) == e
    decreases e
  {
    MirrorSlotTwice(e.key);
    MirrorSlotTwice(e.value);
  }

  lemma {:induction false} MirrorEntriesTwice(entries: seq<Entry>)
    ensures MirrorEntries(MirrorEntries(entries)) == entries
    decreases entries
  {
    if entries != [] {
      var rest, last := MirrorEntries(entries[1..]), MirrorEntry(entries[0]);
      MirrorEntriesAppend(rest, [last]);
      assert MirrorEntries([last]) == [MirrorEntry(last)] by {
        assert [last][1..] == [];
      }
      MirrorEntryTwice(entries[0]);
      MirrorEntriesTwice(entries[1..]);
      assert entries == [entries[0]] + entries[1..];
    }
  }
}
