/**
 * What the three mutually recursive readers of ocyaml.c compute, as
 * functions of the token sequence and the cursor position.
 *
 * Each function mirrors one C function: ReadYaml the value dispatcher,
 * ReadStructure and ReadSequence the do/while body loops (their loop state,
 * the consed list and the current pair, are parameters), Test the top-level
 * driver. A run the C code would never finish, would crash on, or would
 * go on with after linking one mutable pair twice ends in Fail with the
 * reason: the first defect the C code meets, in the order it meets them.
 */
module TreeSpec {
  import opened LibYaml
  import opened Tree

  /** Why a run does not return a tree. */
  datatype Failure =
    | InputExhausted   // a body loop past the last token: every further scan is NoToken, BLOCK-END never comes
    | TopLevelSpin     // the top-level loop saw a first token other than STREAM-START or STREAM-END
    | ValueWithoutKey  // VALUE before any KEY in a mapping: once its value is read, the store goes to an unallocated pair
    | ValueReusesPair  // a second VALUE after one KEY: once its value is read, the pair already linked would be mutated

  /** A finished read (its result and the cursor after it) or a failure. */
  datatype Outcome<+T> = Done(value: T, next: nat) | Fail(failure: Failure)

  /** The `pair` local of read_structure. */
  datatype PairState =
    | NoPair                     // nothing allocated yet
    | Pending(key: Option<Node>) // allocated by KEY, holding the key, not yet linked
    | Linked                     // completed by VALUE and consed onto the list

  /** Tokens left to scan; every call and iteration lowers it. */
  function Left(toks: seq<Token>, pos: nat): nat
  {
    if pos < |toks| then |toks| - pos else 0
  }

  /** The tokens on which read_yaml produces a value. */
  predicate OpensValue(t: Token)
  {
    t.BlockMappingStart? || t.BlockSequenceStart? || t.Scalar?
  }

  /** A body's node, as read_yaml passes it on. */
  function AsValue(o: Outcome<Node>): Outcome<Option<Node>>
  {
    match o
    case Done(n, next) => Done(Some(n), next)
    case Fail(f) => Fail(f)
  }

  /** read_yaml: scan one token and dispatch on it. */
  function ReadYaml(toks: seq<Token>, pos: nat): (r: Outcome<Option<Node>>)
    decreases Left(toks, pos)
    ensures r.Done? ==> pos < r.next && (r.next == pos + 1 || r.next <= |toks|)
    ensures r == Done(None, pos + 1) <==> !OpensValue(TokenAt(toks, pos))
    ensures r.Fail? ==> r.failure != TopLevelSpin
  {
    var token := TokenAt(toks, pos);
    if token.BlockMappingStart? then AsValue(ReadStructure(toks, pos + 1, [], NoPair))
    else if token.BlockSequenceStart? then AsValue(ReadSequence(toks, pos + 1, []))
    else if token.Scalar? then Done(Some(Node.Scalar(CopyString(token.text))), pos + 1)
    else Done(None, pos + 1)
  }

  /**
   * The read_structure loop from cursor `pos`, with `tl` the entries consed
   * so far and `pair` the current pair.
   */
  function ReadStructure(toks: seq<Token>, pos: nat, tl: seq<Entry>, pair: PairState): (r: Outcome<Node>)
    decreases Left(toks, pos)
    ensures r.Done? ==> pos < r.next <= |toks| && toks[r.next - 1].BlockEnd? && r.value.Structure?
    ensures r.Fail? ==> r.failure != TopLevelSpin
  {
    if |toks| <= pos then Fail(InputExhausted)
    else if toks[pos].Key? then
      match ReadYaml(toks, pos + 1)
      case Done(key, next) => ReadStructure(toks, next, tl, Pending(key))
      case Fail(f) => Fail(f)
    else if toks[pos].Value? then
      // Store_field evaluates read_yaml before it stores into `pair`.
      match ReadYaml(toks, pos + 1)
      case Fail(f) => Fail(f)
      case Done(value, next) =>
        match pair
        case NoPair => Fail(ValueWithoutKey)
        case Linked => Fail(ValueReusesPair)
        case Pending(key) => ReadStructure(toks, next, [Entry(key, value)] + tl, Linked)
    else if toks[pos].BlockEnd? then Done(Structure(tl), pos + 1)
    else ReadStructure(toks, pos + 1, tl, pair)
  }

  /** The read_sequence loop from cursor `pos`, with `tl` the items consed so far. */
  function ReadSequence(toks: seq<Token>, pos: nat, tl: seq<Option<Node>>): (r: Outcome<Node>)
    decreases Left(toks, pos)
    ensures r.Done? ==> pos < r.next <= |toks| && toks[r.next - 1].BlockEnd? && r.value.Collection?
    ensures r.Fail? ==> r.failure != TopLevelSpin
  {
    if |toks| <= pos then Fail(InputExhausted)
    else if toks[pos].BlockEntry? then
      match ReadYaml(toks, pos + 1)
      case Done(item, next) => ReadSequence(toks, next, [item] + tl)
      case Fail(f) => Fail(f)
    else if toks[pos].BlockEnd? then Done(Collection(tl), pos + 1)
    else ReadSequence(toks, pos + 1, tl)
  }

  /**
   * The token-driven part of test: one scan, then a loop that never scans
   * again.
   */
  function Test(toks: seq<Token>): (r: Outcome<Option<Node>>)
    ensures r.Done? && r.value.Some? ==> TokenAt(toks, 0).StreamStart?
    ensures r == Fail(TopLevelSpin) <==> !(TokenAt(toks, 0).StreamStart? || TokenAt(toks, 0).StreamEnd?)
  {
    var token := TokenAt(toks, 0);
    if token.StreamStart? then ReadYaml(toks, 1)
    else if token.StreamEnd? then Done(None, 1)
    else Fail(TopLevelSpin)
  }

  // One step of each loop, for proofs that follow a token stream.

  lemma KeyStep(toks: seq<Token>, p: nat, tl: seq<Entry>, pair: PairState, key: Option<Node>, q: nat)
    requires p < |toks| && toks[p].Key? && ReadYaml(toks, p + 1) == Done(key, q)
    ensures ReadStructure(toks, p, tl, pair) == ReadStructure(toks, q, tl, Pending(key))
  {
  }

  lemma ValueStep(toks: seq<Token>, p: nat, tl: seq<Entry>, key: Option<Node>, value: Option<Node>, q: nat)
    requires p < |toks| && toks[p].Value? && ReadYaml(toks, p + 1) == Done(value, q)
    ensures ReadStructure(toks, p, tl, Pending(key)) == ReadStructure(toks, q, [Entry(key, value)] + tl, Linked)
  {
  }

  lemma StructureEnd(toks: seq<Token>, p: nat, tl: seq<Entry>, pair: PairState)
    requires p < |toks| && toks[p].BlockEnd?
    ensures ReadStructure(toks, p, tl, pair) == Done(Structure(tl), p + 1)
  {
  }

  lemma EntryStep(toks: seq<Token>, p: nat, tl: seq<Option<Node>>, item: Option<Node>, q: nat)
    requires p < |toks| && toks[p].BlockEntry? && ReadYaml(toks, p + 1) == Done(item, q)
    ensures ReadSequence(toks, p, tl) == ReadSequence(toks, q, [item] + tl)
  {
  }

  lemma SequenceEnd(toks: seq<Token>, p: nat, tl: seq<Option<Node>>)
    requires p < |toks| && toks[p].BlockEnd?
    ensures ReadSequence(toks, p, tl) == Done(Collection(tl), p + 1)
  {
  }

  /** A finished Structure with `tl` appended behind its entries. */
  function WithEntries(o: Outcome<Node>, tl: seq<Entry>): Outcome<Node>
  {
    match o
    case Done(Structure(entries), next) => Done(Structure(entries + tl), next)
    case _ => o
  }

  /** A finished Collection with `tl` appended behind its items. */
  function WithItems(o: Outcome<Node>, tl: seq<Option<Node>>): Outcome<Node>
  {
    match o
    case Done(Collection(items), next) => Done(Collection(items + tl), next)
    case _ => o
  }

  /**
   * Entries are consed: what the loop has accumulated stays, in order,
   * behind every entry read later, and nothing else depends on it.
   */
  lemma {:induction false} StructureKeepsAccumulated(toks: seq<Token>, pos: nat, tl: seq<Entry>, pair: PairState)
    ensures ReadStructure(toks, pos, tl, pair) == WithEntries(ReadStructure(toks, pos, [], pair), tl)
    decreases Left(toks, pos)
  {
    if pos < |toks| {
      match toks[pos] {
        case Key =>
          match ReadYaml(toks, pos + 1) {
            case Done(key, next) => StructureKeepsAccumulated(toks, next, tl, Pending(key));
            case Fail(_) =>
          }
        case Value =>
          match ReadYaml(toks, pos + 1) {
            case Fail(_) =>
            case Done(value, next) =>
              match pair {
                case NoPair =>
                case Linked =>
                case Pending(key) =>
                  var e := Entry(key, value);
                  assert [e] + [] == [e];
                  StructureKeepsAccumulated(toks, next, [e] + tl, Linked);
                  StructureKeepsAccumulated(toks, next, [e], Linked);
                  var o := ReadStructure(toks, next, [], Linked);
                  if o.Done? {
                    assert o.value.entries + ([e] + tl) == (o.value.entries + [e]) + tl;
                  }
              }
          }
        case BlockEnd => assert [] + tl == tl;
        case _ => StructureKeepsAccumulated(toks, pos + 1, tl, pair);
      }
    }
  }

  /** Items are consed: the accumulated items stay, in order, behind every later item. */
  lemma {:induction false} SequenceKeepsAccumulated(toks: seq<Token>, pos: nat, tl: seq<Option<Node>>)
    ensures ReadSequence(toks, pos, tl) == WithItems(ReadSequence(toks, pos, []), tl)
    decreases Left(toks, pos)
  {
    if pos < |toks| {
      match toks[pos] {
        case BlockEntry =>
          match ReadYaml(toks, pos + 1) {
            case Done(item, next) =>
              assert [item] + [] == [item];
              SequenceKeepsAccumulated(toks, next, [item] + tl);
              SequenceKeepsAccumulated(toks, next, [item]);
              var o := ReadSequence(toks, next, []);
              if o.Done? {
                assert o.value.items + ([item] + tl) == (o.value.items + [item]) + tl;
              }
            case Fail(_) =>
          }
        case BlockEnd => assert [] + tl == tl;
        case _ => SequenceKeepsAccumulated(toks, pos + 1, tl);
      }
    }
  }

  /** Tokens read_structure's switch does not name (the `default` branch). */
  predicate StructureIgnores(t: Token)
  {
    !(t.Key? || t.Value? || t.BlockEnd?)
  }

  /** Tokens read_sequence's switch does not name (the `default` branch). */
  predicate SequenceIgnores(t: Token)
  {
    !(t.BlockEntry? || t.BlockEnd?)
  }

  /** A run of unrecognised tokens in a mapping body is consumed and changes nothing. */
  lemma {:induction false} StructureSkipsIgnored(toks: seq<Token>, p: nat, q: nat, tl: seq<Entry>, pair: PairState)
    requires p <= q <= |toks|
    requires forall i | p <= i < q :: StructureIgnores(toks[i])
    ensures ReadStructure(toks, p, tl, pair) == ReadStructure(toks, q, tl, pair)
    decreases q - p
  {
    if p < q {
      StructureSkipsIgnored(toks, p + 1, q, tl, pair);
    }
  }

  /** A run of unrecognised tokens in a sequence body is consumed and changes nothing. */
  lemma {:induction false} SequenceSkipsIgnored(toks: seq<Token>, p: nat, q: nat, tl: seq<Option<Node>>)
    requires p <= q <= |toks|
    requires forall i | p <= i < q :: SequenceIgnores(toks[i])
    ensures ReadSequence(toks, p, tl) == ReadSequence(toks, q, tl)
    decreases q - p
  {
    if p < q {
      SequenceSkipsIgnored(toks, p + 1, q, tl);
    }
  }

  /**
   * With nothing between the cursor and a BLOCK-END that the switch names,
   * the mapping loop stops right after that BLOCK-END with the list as it is.
   */
  lemma {:induction false} StructureStopsAtEnd(toks: seq<Token>, p: nat, q: nat, tl: seq<Entry>, pair: PairState)
    requires p <= q < |toks| && toks[q].BlockEnd?
    requires forall i | p <= i < q :: StructureIgnores(toks[i])
    ensures ReadStructure(toks, p, tl, pair) == Done(Structure(tl), q + 1)
  {
    StructureSkipsIgnored(toks, p, q, tl, pair);
    StructureEnd(toks, q, tl, pair);
  }

  /**
   * With nothing between the cursor and a BLOCK-END that the switch names,
   * the sequence loop stops right after that BLOCK-END with the list as it is.
   */
  lemma {:induction false} SequenceStopsAtEnd(toks: seq<Token>, p: nat, q: nat, tl: seq<Option<Node>>)
    requires p <= q < |toks| && toks[q].BlockEnd?
    requires forall i | p <= i < q :: SequenceIgnores(toks[i])
    ensures ReadSequence(toks, p, tl) == Done(Collection(tl), q + 1)
  {
    SequenceSkipsIgnored(toks, p, q, tl);
    SequenceEnd(toks, q, tl);
  }

  /**
   * A KEY, its key, a run of unrecognised tokens, then a VALUE and its
   * value: exactly that key/value pair is consed in front of the list,
   * whatever pair was current before the KEY.
   */
  lemma {:induction false} EntryRun(toks: seq<Token>, p: nat, tl: seq<Entry>, pair: PairState,
                                    key: Option<Node>, m: nat, j: nat, value: Option<Node>, r: nat)
    requires p < |toks| && toks[p].Key? && ReadYaml(toks, p + 1) == Done(key, m)
    requires m <= j < |toks| && forall i | m <= i < j :: StructureIgnores(toks[i])
    requires toks[j].Value? && ReadYaml(toks, j + 1) == Done(value, r)
    ensures ReadStructure(toks, p, tl, pair) == ReadStructure(toks, r, [Entry(key, value)] + tl, Linked)
  {
    KeyStep(toks, p, tl, pair, key, m);
    StructureSkipsIgnored(toks, m, j, tl, Pending(key));
    ValueStep(toks, j, tl, key, value, r);
  }

  /**
   * Two KEYs before one VALUE: the first key is dropped and the entry
   * consed pairs the most recent key with the value.
   */
  lemma {:induction false} MostRecentKeyWins(toks: seq<Token>, p: nat, tl: seq<Entry>, pair: PairState,
                                             first: Option<Node>, m: nat, j: nat,
                                             key: Option<Node>, m2: nat, j2: nat, value: Option<Node>, r: nat)
    requires p < |toks| && toks[p].Key? && ReadYaml(toks, p + 1) == Done(first, m)
    requires m <= j < |toks| && forall i | m <= i < j :: StructureIgnores(toks[i])
    requires toks[j].Key? && ReadYaml(toks, j + 1) == Done(key, m2)
    requires m2 <= j2 < |toks| && forall i | m2 <= i < j2 :: StructureIgnores(toks[i])
    requires toks[j2].Value? && ReadYaml(toks, j2 + 1) == Done(value, r)
    ensures ReadStructure(toks, p, tl, pair) == ReadStructure(toks, r, [Entry(key, value)] + tl, Linked)
  {
    KeyStep(toks, p, tl, pair, first, m);
    StructureSkipsIgnored(toks, m, j, tl, Pending(first));
    EntryRun(toks, j, tl, Pending(first), key, m2, j2, value, r);
  }

  /**
   * A VALUE straight after a completed pair, with only unrecognised tokens
   * between: the second VALUE's value is read first, and a value that reads
   * finds the pair already linked.
   */
  lemma {:induction false} SecondValueFails(toks: seq<Token>, p: nat, tl: seq<Entry>, pair: PairState,
                                            key: Option<Node>, m: nat, j: nat, value: Option<Node>, r: nat, j2: nat)
    requires p < |toks| && toks[p].Key? && ReadYaml(toks, p + 1) == Done(key, m)
    requires m <= j < |toks| && forall i | m <= i < j :: StructureIgnores(toks[i])
    requires toks[j].Value? && ReadYaml(toks, j + 1) == Done(value, r)
    requires r <= j2 < |toks| && forall i | r <= i < j2 :: StructureIgnores(toks[i])
    requires toks[j2].Value?
    ensures ReadStructure(toks, p, tl, pair)
            == Fail(if ReadYaml(toks, j2 + 1).Fail? then ReadYaml(toks, j2 + 1).failure else ValueReusesPair)
  {
    EntryRun(toks, p, tl, pair, key, m, j, value, r);
    StructureSkipsIgnored(toks, r, j2, [Entry(key, value)] + tl, Linked);
  }

  /**
   * A BLOCK-ENTRY, its item and a run of unrecognised tokens: exactly that
   * item is consed in front of the list.
   */
  lemma {:induction false} ItemRun(toks: seq<Token>, p: nat, tl: seq<Option<Node>>, item: Option<Node>, q: nat, j: nat)
    requires p < |toks| && toks[p].BlockEntry? && ReadYaml(toks, p + 1) == Done(item, q)
    requires q <= j <= |toks| && forall i | q <= i < j :: SequenceIgnores(toks[i])
    ensures ReadSequence(toks, p, tl) == ReadSequence(toks, j, [item] + tl)
  {
    EntryStep(toks, p, tl, item, q);
    SequenceSkipsIgnored(toks, q, j, [item] + tl);
  }
}
