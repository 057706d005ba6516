/**
 * The token sequences libyaml produces for block-style documents, and what
 * the builder makes of them.
 *
 * Emit lays a tree out the way the scanner tokenises nested, indented block
 * collections: a mapping is BLOCK-MAPPING-START, then KEY key VALUE value
 * per entry, then BLOCK-END; a sequence is BLOCK-SEQUENCE-START, then
 * BLOCK-ENTRY item per item, then BLOCK-END; a scalar is one SCALAR token.
 * For a non-empty collection this is the scanner's own output up to the
 * scalar style (Emit writes every scalar Plain, the scanner gives quoted
 * text its quoted style; the builder drops the style either way); an empty
 * collection has no block form (YAML writes it `[]` or `{}`), so its layout
 * is one the scanner never produces.
 * The round trip shows that reading such a layout gives back the tree with
 * every list reversed.
 */
module Layout {
  import opened LibYaml
  import opened Tree
  import opened TreeSpec

  /** Every slot filled and no scalar text holding a NUL: the trees a layout can express. */
  predicate Writable(n: Node)
    decreases n
  {
    match n
    case Scalar(text) => '\0' !in text
    case Collection(items) => forall i | 0 <= i < |items| :: WritableSlot(items[i])
    case Structure(entries) => forall i | 0 <= i < |entries| :: WritableEntry(entries[i])
  }

  predicate WritableSlot(s: Option<Node>)
    decreases s
  {
    s.Some? && Writable(s.value)
  }

  predicate WritableEntry(e: Entry)
    decreases e
  {
    WritableSlot(e.key) && WritableSlot(e.value)
  }

  function Emit(n: Node): seq<Token>
    requires Writable(n)
    decreases n
  {
    match n
    case Scalar(text) => [Token.Scalar(text, Plain)]
    case Collection(items) => [BlockSequenceStart] + EmitItems(items) + [BlockEnd]
    case Structure(entries) => [BlockMappingStart] + EmitEntries(entries) + [BlockEnd]
  }

  function EmitSlot(s: Option<Node>): seq<Token>
    requires WritableSlot(s)
    decreases s
  {
    Emit(s.value)
  }

  function EmitItems(items: seq<Option<Node>>): seq<Token>
    requires forall i | 0 <= i < |items| :: WritableSlot(items[i])
    decreases items
  {
    if items == [] then [] else [BlockEntry] + EmitSlot(items[0]) + EmitItems(items[1..])
  }

  function EmitEntry(e: Entry): seq<Token>
    requires WritableEntry(e)
    decreases e
  {
    [Key] + EmitSlot(e.key) + [Value] + EmitSlot(e.value)
  }

  function EmitEntries(entries: seq<Entry>): seq<Token>
    requires forall i | 0 <= i < |entries| :: WritableEntry(entries[i])
    decreases entries
  {
    if entries == [] then [] else EmitEntry(entries[0]) + EmitEntries(entries[1..])
  }

  /** `toks` holds `e` from position `p` on. */
  predicate At(toks: seq<Token>, p: nat, e: seq<Token>)
  {
    p + |e| <= |toks| && forall i | 0 <= i < |e| :: toks[p + i] == e[i]
  }

  lemma AtSplit(toks: seq<Token>, p: nat, a: seq<Token>, b: seq<Token>)
    requires At(toks, p, a + b)
    ensures At(toks, p, a) && At(toks, p + |a|, b)
  {
    forall i | 0 <= i < |a|
      ensures toks[p + i] == a[i]
    {
      assert (a + b)[i] == a[i];
    }
    forall i | 0 <= i < |b|
      ensures toks[p + |a| + i] == b[i]
    {
      assert (a + b)[|a| + i] == b[i];
      assert toks[p + (|a| + i)] == (a + b)[|a| + i];
    }
  }

  lemma AtFirst(toks: seq<Token>, p: nat, e: seq<Token>)
    requires At(toks, p, e) && e != []
    ensures toks[p] == e[0]
  {
    assert toks[p + 0] == e[0];
  }

  /** A laid-out collection: its opening token, then its body and BLOCK-END. */
  lemma OpenedAt(toks: seq<Token>, p: nat, open: Token, body: seq<Token>)
    requires At(toks, p, [open] + body + [BlockEnd])
    ensures toks[p] == open && At(toks, p + 1, body + [BlockEnd])
  {
    assert [open] + body + [BlockEnd] == [open] + (body + [BlockEnd]);
    AtFirst(toks, p, [open] + body + [BlockEnd]);
    AtSplit(toks, p, [open], body + [BlockEnd]);
  }

  /** A laid-out item in a sequence body: BLOCK-ENTRY, the item, then the rest. */
  lemma ItemAt(toks: seq<Token>, p: nat, first: seq<Token>, rest: seq<Token>)
    requires At(toks, p, [BlockEntry] + first + rest)
    ensures toks[p].BlockEntry? && At(toks, p + 1, first) && At(toks, p + 1 + |first|, rest)
  {
    assert [BlockEntry] + first + rest == [BlockEntry] + (first + rest);
    AtFirst(toks, p, [BlockEntry] + first + rest);
    AtSplit(toks, p, [BlockEntry], first + rest);
    AtSplit(toks, p + 1, first, rest);
  }

  /** A laid-out entry in a mapping body: KEY, the key, VALUE, the value. */
  lemma EntryAt(toks: seq<Token>, p: nat, k: seq<Token>, v: seq<Token>)
    requires At(toks, p, [Key] + k + [Value] + v)
    ensures toks[p].Key? && At(toks, p + 1, k)
    ensures p + 1 + |k| < |toks| && toks[p + 1 + |k|].Value? && At(toks, p + 2 + |k|, v)
  {
    assert [Key] + k + [Value] + v == [Key] + (k + ([Value] + v));
    AtFirst(toks, p, [Key] + k + [Value] + v);
    AtSplit(toks, p, [Key], k + ([Value] + v));
    AtSplit(toks, p + 1, k, [Value] + v);
    AtFirst(toks, p + 1 + |k|, [Value] + v);
    AtSplit(toks, p + 1 + |k|, [Value], v);
  }

  /** The closing BLOCK-END of a body. */
  lemma EndAt(toks: seq<Token>, p: nat)
    requires At(toks, p, [BlockEnd])
    ensures p < |toks| && toks[p].BlockEnd?
  {
    AtFirst(toks, p, [BlockEnd]);
  }

  /** Reading a laid-out value gives its mirror image and stops right after it. */
  lemma {:induction false} ReadEmitted(toks: seq<Token>, p: nat, n: Node)
    requires Writable(n) && At(toks, p, Emit(n))
    ensures ReadYaml(toks, p) == Done(Some(Mirror(n)), p + |Emit(n)|)
    decreases n
  {
    match n {
      case Scalar(text) =>
        AtFirst(toks, p, Emit(n));
        NulFreeCopy(text);
      case Collection(items) =>
        OpenedAt(toks, p, BlockSequenceStart, EmitItems(items));
        ReadEmittedItems(toks, p + 1, items, []);
        assert MirrorItems(items) + [] == MirrorItems(items);
      case Structure(entries) =>
        OpenedAt(toks, p, BlockMappingStart, EmitEntries(entries));
        ReadEmittedEntries(toks, p + 1, entries, [], NoPair);
        assert MirrorEntries(entries) + [] == MirrorEntries(entries);
    }
  }

  lemma {:induction false} ReadEmittedSlot(toks: seq<Token>, p: nat, s: Option<Node>)
    requires WritableSlot(s) && At(toks, p, EmitSlot(s))
    ensures ReadYaml(toks, p) == Done(MirrorSlot(s), p + |EmitSlot(s)|)
    decreases s
  {
    ReadEmitted(toks, p, s.value);
  }

  /** Reading laid-out items and the closing BLOCK-END conses them, last item first. */
  lemma {:induction false} ReadEmittedItems(toks: seq<Token>, p: nat, items: seq<Option<Node>>, tl: seq<Option<Node>>)
    requires forall i | 0 <= i < |items| :: WritableSlot(items[i])
    requires At(toks, p, EmitItems(items) + [BlockEnd])
    ensures ReadSequence(toks, p, tl) == Done(Collection(MirrorItems(items) + tl), p + |EmitItems(items)| + 1)
    decreases items
  {
    if items == [] {
      assert EmitItems(items) + [BlockEnd] == [BlockEnd];
      assert MirrorItems(items) + tl == tl;
      EndAt(toks, p);
      SequenceEnd(toks, p, tl);
    } else {
      var first, rest := EmitSlot(items[0]), EmitItems(items[1..]);
      var item := MirrorSlot(items[0]);
      ItemsCons(items);
      ItemAt(toks, p, first, rest + [BlockEnd]);
      ReadEmittedSlot(toks, p + 1, items[0]);
      var q := p + 1 + |first|;
      EntryStep(toks, p, tl, item, q);
      assert forall i | 0 <= i < |items[1..]| :: WritableSlot(items[1..][i]);
      ReadEmittedItems(toks, q, items[1..], [item] + tl);
      MirrorItemsCons(items, tl);
    }
  }

  /** One laid-out entry in a mapping body becomes the newest entry; the pair ends linked. */
  lemma {:induction false} ReadEmittedEntry(toks: seq<Token>, p: nat, e: Entry, tl: seq<Entry>, pair: PairState)
    requires WritableEntry(e) && At(toks, p, EmitEntry(e))
    ensures ReadStructure(toks, p, tl, pair) == ReadStructure(toks, p + |EmitEntry(e)|, [MirrorEntry(e)] + tl, Linked)
    decreases e
  {
    var k, v := EmitSlot(e.key), EmitSlot(e.value);
    EntryAt(toks, p, k, v);
    ReadEmittedSlot(toks, p + 1, e.key);
    ReadEmittedSlot(toks, p + 2 + |k|, e.value);
    KeyStep(toks, p, tl, pair, MirrorSlot(e.key), p + 1 + |k|);
    ValueStep(toks, p + 1 + |k|, tl, MirrorSlot(e.key), MirrorSlot(e.value), p + 2 + |k| + |v|);
  }

  /** Reading laid-out entries and the closing BLOCK-END conses them, last entry first. */
  lemma {:induction false} ReadEmittedEntries(toks: seq<Token>, p: nat, entries: seq<Entry>, tl: seq<Entry>, pair: PairState)
    requires forall i | 0 <= i < |entries| :: WritableEntry(entries[i])
    requires At(toks, p, EmitEntries(entries) + [BlockEnd])
    ensures ReadStructure(toks, p, tl, pair) == Done(Structure(MirrorEntries(entries) + tl), p + |EmitEntries(entries)| + 1)
    decreases entries, 1
  {
    if entries == [] {
      assert EmitEntries(entries) + [BlockEnd] == [BlockEnd];
      assert MirrorEntries(entries) + tl == tl;
      EndAt(toks, p);
      StructureEnd(toks, p, tl, pair);
    } else {
      var q := p + |EmitEntry(entries[0])|;
      var e := MirrorEntry(entries[0]);
      FirstEntry(toks, p, entries, tl, pair);
      ReadEmittedEntries(toks, q, entries[1..], [e] + tl, Linked);
      MirrorEntriesCons(entries, tl);
    }
  }

  /** The first laid-out entry of a mapping body, and where the rest of the body starts. */
  lemma {:induction false} FirstEntry(toks: seq<Token>, p: nat, entries: seq<Entry>, tl: seq<Entry>, pair: PairState)
    requires entries != [] && forall i | 0 <= i < |entries| :: WritableEntry(entries[i])
    requires At(toks, p, EmitEntries(entries) + [BlockEnd])
    ensures forall i | 0 <= i < |entries[1..]| :: WritableEntry(entries[1..][i])
    ensures At(toks, p + |EmitEntry(entries[0])|, EmitEntries(entries[1..]) + [BlockEnd])
    ensures |EmitEntries(entries)| == |EmitEntry(entries[0])| + |EmitEntries(entries[1..])|
    ensures ReadStructure(toks, p, tl, pair)
            == ReadStructure(toks, p + |EmitEntry(entries[0])|, [MirrorEntry(entries[0])] + tl, Linked)
    decreases entries, 0
  {
    EntriesCons(entries);
    AtSplit(toks, p, EmitEntry(entries[0]), EmitEntries(entries[1..]) + [BlockEnd]);
    ReadEmittedEntry(toks, p, entries[0], tl, pair);
  }

  lemma ItemsCons(items: seq<Option<Node>>)
    requires items != [] && forall i | 0 <= i < |items| :: WritableSlot(items[i])
    ensures EmitItems(items) + [BlockEnd] == [BlockEntry] + EmitSlot(items[0]) + (EmitItems(items[1..]) + [BlockEnd])
    ensures |EmitItems(items)| == 1 + |EmitSlot(items[0])| + |EmitItems(items[1..])|
  {
  }

  lemma EntriesCons(entries: seq<Entry>)
    requires entries != [] && forall i | 0 <= i < |entries| :: WritableEntry(entries[i])
    ensures EmitEntries(entries) + [BlockEnd] == EmitEntry(entries[0]) + (EmitEntries(entries[1..]) + [BlockEnd])
    ensures |EmitEntries(entries)| == |EmitEntry(entries[0])| + |EmitEntries(entries[1..])|
  {
  }

  lemma MirrorItemsCons(items: seq<Option<Node>>, tl: seq<Option<Node>>)
    requires items != []
    ensures MirrorItems(items[1..]) + ([MirrorSlot(items[0])] + tl) == MirrorItems(items) + tl
  {
  }

  lemma MirrorEntriesCons(entries: seq<Entry>, tl: seq<Entry>)
    requires entries != []
    ensures MirrorEntries(entries[1..]) + ([MirrorEntry(entries[0])] + tl) == MirrorEntries(entries) + tl
  {
  }

  lemma {:induction false} NulFreeCopy(s: string)
    requires '\0' !in s
    ensures CopyString(s) == s
  {
    if s != [] {
      NulFreeCopy(s[1..]);
    }
  }

  /**
   * A whole stream: STREAM-START, a laid-out document, then anything. The
   * driver returns the mirror image of the document's tree.
   */
  lemma ReadDocument(enc: Encoding, n: Node, rest: seq<Token>)
    requires Writable(n)
    ensures Test([StreamStart(enc)] + Emit(n) + rest) == Done(Some(Mirror(n)), 1 + |Emit(n)|)
  {
    var toks := [StreamStart(enc)] + Emit(n) + rest;
    forall i | 0 <= i < |Emit(n)|
      ensures toks[1 + i] == Emit(n)[i]
    {
    }
    ReadEmitted(toks, 1, n);
  }
  /** Mirroring keeps a tree writable. */
  lemma {:induction false} MirrorWritable(n: Node)
    requires Writable(n)
    ensures Writable(Mirror(n))
    decreases n
  {
    match n {
      case Scalar(_) =>
      case Collection(items) => MirrorItemsWritable(items);
      case Structure(entries) => MirrorEntriesWritable(entries);
    }
  }

  lemma {:induction false} MirrorSlotWritable(s: Option<Node>)
    requires WritableSlot(s)
    ensures WritableSlot(MirrorSlot(s))
    decreases s
  {
    MirrorWritable(s.value);
  }

  lemma {:induction false} MirrorItemsWritable(items: seq<Option<Node>>)
    requires forall i | 0 <= i < |items| :: WritableSlot(items[i])
    ensures forall i | 0 <= i < |MirrorItems(items)| :: WritableSlot(MirrorItems(items)[i])
    decreases items
  {
    if items != [] {
      MirrorSlotWritable(items[0]);
      MirrorItemsWritable(items[1..]);
    }
  }

  lemma {:induction false} MirrorEntryWritable(e: Entry)
    requires WritableEntry(e)
    ensures WritableEntry(MirrorEntry(e))
    decreases e
  {
    MirrorSlotWritable(e.key);
    MirrorSlotWritable(e.value);
  }

  lemma {:induction false} MirrorEntriesWritable(entries: seq<Entry>)
    requires forall i | 0 <= i < |entries| :: WritableEntry(entries[i])
    ensures forall i | 0 <= i < |MirrorEntries(entries)| :: WritableEntry(MirrorEntries(entries)[i])
    decreases entries
  {
    if entries != [] {
      MirrorEntryWritable(entries[0]);
      MirrorEntriesWritable(entries[1..]);
    }
  }

  /**
   * A stream laid out with every list in reverse comes back as the tree in
   * the order it was written.
   */
  lemma ReadMirroredDocument(enc: Encoding, n: Node, rest: seq<Token>)
    requires Writable(n)
    ensures Writable(Mirror(n))
    ensures Test([StreamStart(enc)] + Emit(Mirror(n)) + rest) == Done(Some(n), 1 + |Emit(Mirror(n))|)
  {
    MirrorWritable(n);
    ReadDocument(enc, Mirror(n), rest);
    MirrorTwice(n);
  }
}
