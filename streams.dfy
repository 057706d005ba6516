/** Worked token streams, as libyaml produces them for small documents. */
module Streams {
  import opened LibYaml
  import opened Tree
  import opened TreeSpec
  import Layout

  /** The mapping `a: 1` then `b: 2`, in source order. */
  function TwoEntries(): Node
  {
    Structure([Entry(Some(Node.Scalar("a")), Some(Node.Scalar("1"))),
               Entry(Some(Node.Scalar("b")), Some(Node.Scalar("2")))])
  }

  /** The tokens libyaml produces for TwoEntries are its block layout. */
  lemma TwoEntriesLayout()
    ensures Layout.Writable(TwoEntries())
    ensures [StreamStart(Utf8)] + Layout.Emit(TwoEntries()) + [StreamEnd]
         == [StreamStart(Utf8), BlockMappingStart,
             Key, Token.Scalar("a", Plain), Value, Token.Scalar("1", Plain),
             Key, Token.Scalar("b", Plain), Value, Token.Scalar("2", Plain),
             BlockEnd, StreamEnd]
  {
    var es := TwoEntries().entries;
    var ta := [Key, Token.Scalar("a", Plain), Value, Token.Scalar("1", Plain)];
    var tb := [Key, Token.Scalar("b", Plain), Value, Token.Scalar("2", Plain)];
    assert Layout.WritableEntry(es[0]) && Layout.WritableEntry(es[1]);
    assert Layout.EmitEntry(es[0]) == ta;
    assert Layout.EmitEntry(es[1]) == tb;
    assert es[1..] == [es[1]] && [es[1]][1..] == [];
    assert Layout.EmitEntries([es[1]]) == tb;
    assert Layout.EmitEntries(es) == ta + tb;
  }

  /** `a: 1` then `b: 2`: the entries come back last one first. */
  lemma TwoEntriesReversed()
    ensures Test([StreamStart(Utf8), BlockMappingStart,
                  Key, Token.Scalar("a", Plain), Value, Token.Scalar("1", Plain),
                  Key, Token.Scalar("b", Plain), Value, Token.Scalar("2", Plain),
                  BlockEnd, StreamEnd])
            == Done(Some(Structure([Entry(Some(Node.Scalar("b")), Some(Node.Scalar("2"))),
                                    Entry(Some(Node.Scalar("a")), Some(Node.Scalar("1")))])), 11)
  {
    var es := TwoEntries().entries;
    TwoEntriesLayout();
    Layout.ReadDocument(Utf8, TwoEntries(), [StreamEnd]);
    assert es[1..] == [es[1]] && [es[1]][1..] == [];
    assert MirrorEntries([es[1]]) == [es[1]];
    assert MirrorEntries(es) == [es[1], es[0]];
  }

  /** `{a: 1}`: the flow mapping's start token is not understood, so no value is produced. */
  lemma FlowMappingUnread()
    ensures Test([StreamStart(Utf8), FlowMappingStart,
                  Key, Token.Scalar("a", Plain), Value, Token.Scalar("1", Plain),
                  FlowMappingEnd, StreamEnd])
            == Done(None, 2)
  {
  }

  /** The sequence `- x`, `- y`, `- z`, in source order. */
  function ThreeItems(): Node
  {
    Collection([Some(Node.Scalar("x")), Some(Node.Scalar("y")), Some(Node.Scalar("z"))])
  }

  /** The tokens libyaml produces for ThreeItems are its block layout. */
  lemma ThreeItemsLayout()
    ensures Layout.Writable(ThreeItems())
    ensures [StreamStart(Utf8)] + Layout.Emit(ThreeItems()) + [StreamEnd]
         == [StreamStart(Utf8), BlockSequenceStart,
             BlockEntry, Token.Scalar("x", Plain),
             BlockEntry, Token.Scalar("y", Plain),
             BlockEntry, Token.Scalar("z", Plain),
             BlockEnd, StreamEnd]
  {
    var its := ThreeItems().items;
    assert its[1..][1..] == [its[2]] && [its[2]][1..] == [];
    assert Layout.EmitItems([its[2]]) == [BlockEntry, Token.Scalar("z", Plain)];
    assert Layout.EmitItems(its[1..]) == [BlockEntry, Token.Scalar("y", Plain), BlockEntry, Token.Scalar("z", Plain)];
  }

  /** `- x`, `- y`, `- z`: the items come back last one first. */
  lemma ThreeItemsReversed()
    ensures Test([StreamStart(Utf8), BlockSequenceStart,
                  BlockEntry, Token.Scalar("x", Plain),
                  BlockEntry, Token.Scalar("y", Plain),
                  BlockEntry, Token.Scalar("z", Plain),
                  BlockEnd, StreamEnd])
            == Done(Some(Collection([Some(Node.Scalar("z")), Some(Node.Scalar("y")), Some(Node.Scalar("x"))])), 9)
  {
    var its := ThreeItems().items;
    ThreeItemsLayout();
    Layout.ReadDocument(Utf8, ThreeItems(), [StreamEnd]);
    assert its[1..][1..] == [its[2]] && [its[2]][1..] == [];
    assert MirrorItems([its[2]]) == [its[2]];
    assert MirrorItems(its[1..]) == [its[2], its[1]];
    assert MirrorItems(its) == [its[2], its[1], its[0]];
    assert |Layout.Emit(ThreeItems())| == 8;
  }

  /** `: 1` with no key before it: the value has no pair to go into. */
  lemma ValueFirstFails()
    ensures Test([StreamStart(Utf8), BlockMappingStart, Value, Token.Scalar("1", Plain), BlockEnd, StreamEnd])
            == Fail(ValueWithoutKey)
  {
  }

  /**
   * `:` followed by an unclosed mapping: the value is read before the store
   * into the missing pair, and that read runs out of tokens first.
   */
  lemma ValueReadBeforeStore()
    ensures Test([StreamStart(Utf8), BlockMappingStart, Value, BlockMappingStart, Key, Token.Scalar("a", Plain)])
            == Fail(InputExhausted)
  {
  }

  /** A mapping whose BLOCK-END never comes: the loop runs out of tokens. */
  lemma UnclosedMappingFails()
    ensures Test([StreamStart(Utf8), BlockMappingStart, Key, Token.Scalar("a", Plain)])
            == Fail(InputExhausted)
  {
  }

  /**
   * `a:` as the last entry: the empty value's read consumes the mapping's
   * BLOCK-END, so the body loop runs out of tokens.
   */
  lemma EmptyLastValueFails()
    ensures Test([StreamStart(Utf8), BlockMappingStart, Key, Token.Scalar("a", Plain), Value, BlockEnd, StreamEnd])
            == Fail(InputExhausted)
  {
  }

  /**
   * `a:` then `b: 2`: the empty value's read consumes the second KEY, so the
   * second VALUE finds the first pair already linked.
   */
  lemma EmptyValueSwallowsKey()
    ensures Test([StreamStart(Utf8), BlockMappingStart,
                  Key, Token.Scalar("a", Plain), Value,
                  Key, Token.Scalar("b", Plain), Value, Token.Scalar("2", Plain),
                  BlockEnd, StreamEnd])
            == Fail(ValueReusesPair)
  {
  }
}

