/**
 * The tree builder of ocyaml.c as it runs: a parser object whose cursor
 * each scan advances, and the three mutually recursive readers that pull
 * tokens from it. Every method is proved to compute what the matching
 * function of TreeSpec describes.
 */
module OcYaml {
  import opened LibYaml
  import opened Tree
  import TreeSpec

  /**
   * The libyaml parser once its input is set: the tokens it will produce
   * and a cursor that every scan moves forward by one.
   */
  class Parser {
    const tokens: seq<Token>
    var pos: nat

    constructor (tokens: seq<Token>)
      ensures this.tokens == tokens && pos == 0
    {
      this.tokens := tokens;
      pos := 0;
    }

    /** yaml_parser_scan: the next token, NoToken once the input is used up. */
    method Scan() returns (token: Token)
      modifies this
      ensures token == TokenAt(tokens, old(pos))
      ensures pos == old(pos) + 1
    {
      if pos < |tokens| {
        token := tokens[pos];
      } else {
        token := NoToken;
      }
      pos := pos + 1;
    }

    /** read_yaml: one scan, then a mapping body, a sequence body, a scalar or no value. */
    method ReadYaml() returns (r: TreeSpec.Outcome<Option<Node>>)
      modifies this
      decreases TreeSpec.Left(tokens, pos)
      ensures r == TreeSpec.ReadYaml(tokens, old(pos))
      ensures r.Done? ==> pos == r.next
      ensures TokenAt(tokens, old(pos)).BlockMappingStart? ==>
                r == TreeSpec.AsValue(TreeSpec.ReadStructure(tokens, old(pos) + 1, [], TreeSpec.NoPair))
      ensures TokenAt(tokens, old(pos)).BlockSequenceStart? ==>
                r == TreeSpec.AsValue(TreeSpec.ReadSequence(tokens, old(pos) + 1, []))
      ensures TokenAt(tokens, old(pos)).Scalar? ==>
                r == TreeSpec.Done(Some(Node.Scalar(CopyString(TokenAt(tokens, old(pos)).text))), old(pos) + 1)
      ensures !TreeSpec.OpensValue(TokenAt(tokens, old(pos))) ==>
                r == TreeSpec.Done(None, old(pos) + 1) && pos == old(pos) + 1
    {
      var token := Scan();
      match token {
        case BlockMappingStart =>
          var s := ReadStructure();
          r := TreeSpec.AsValue(s);
        case BlockSequenceStart =>
          var s := ReadSequence();
          r := TreeSpec.AsValue(s);
        case Scalar(text, _) =>
          r := TreeSpec.Done(Some(Node.Scalar(CopyString(text))), pos);
        case _ =>
          r := TreeSpec.Done(None, pos);
      }
    }

    /**
     * read_structure: scan until BLOCK-END; a KEY reads the key of a new
     * pair, a VALUE reads its value and conses the pair onto the list.
     */
    method ReadStructure() returns (r: TreeSpec.Outcome<Node>)
      modifies this
      decreases TreeSpec.Left(tokens, pos)
      ensures r == TreeSpec.ReadStructure(tokens, old(pos), [], TreeSpec.NoPair)
      ensures r.Done? ==> pos == r.next
    {
      ghost var start := pos;
      var tl: seq<Entry> := [];
      var pair := TreeSpec.NoPair;
      while true
        invariant start <= pos
        invariant TreeSpec.ReadStructure(tokens, pos, tl, pair) == TreeSpec.ReadStructure(tokens, start, [], TreeSpec.NoPair)
        decreases TreeSpec.Left(tokens, pos)
      {
        if |tokens| <= pos {
          // Every further scan yields NoToken: the C loop never ends.
          return TreeSpec.Fail(TreeSpec.InputExhausted);
        }
        var token := Scan();
        match token {
          case Key =>
            var key := ReadYaml();
            if key.Fail? {
              return TreeSpec.Fail(key.failure);
            }
            pair := TreeSpec.Pending(key.value);
          case Value =>
            var value := ReadYaml();
            if value.Fail? {
              return TreeSpec.Fail(value.failure);
            }
            match pair {
              case NoPair =>
                return TreeSpec.Fail(TreeSpec.ValueWithoutKey);
              case Linked =>
                return TreeSpec.Fail(TreeSpec.ValueReusesPair);
              case Pending(key) =>
                tl := [Entry(key, value.value)] + tl;
                pair := TreeSpec.Linked;
            }
          case BlockEnd =>
            return TreeSpec.Done(Structure(tl), pos);
          case _ =>
        }
      }
    }

    /** read_sequence: scan until BLOCK-END, consing one item per BLOCK-ENTRY. */
    method ReadSequence() returns (r: TreeSpec.Outcome<Node>)
      modifies this
      decreases TreeSpec.Left(tokens, pos)
      ensures r == TreeSpec.ReadSequence(tokens, old(pos), [])
      ensures r.Done? ==> pos == r.next
    {
      ghost var start := pos;
      var tl: seq<Option<Node>> := [];
      while true
        invariant start <= pos
        invariant TreeSpec.ReadSequence(tokens, pos, tl) == TreeSpec.ReadSequence(tokens, start, [])
        decreases TreeSpec.Left(tokens, pos)
      {
        if |tokens| <= pos {
          // Every further scan yields NoToken: the C loop never ends.
          return TreeSpec.Fail(TreeSpec.InputExhausted);
        }
        var token := Scan();
        match token {
          case BlockEntry =>
            var item := ReadYaml();
            if item.Fail? {
              return TreeSpec.Fail(item.failure);
            }
            tl := [item.value] + tl;
          case BlockEnd =>
            return TreeSpec.Done(Collection(tl), pos);
          case _ =>
        }
      }
    }
  }

  /**
   * test, from the point where the parser reads its input: one scan; on
   * STREAM-START the document's value, on STREAM-END no value. On any other
   * first token the C loop re-examines the zeroed token forever.
   */
  method Test(tokens: seq<Token>) returns (r: TreeSpec.Outcome<Option<Node>>)
    ensures r == TreeSpec.Test(tokens)
    ensures TokenAt(tokens, 0).StreamStart? ==> r == TreeSpec.ReadYaml(tokens, 1)
    ensures TokenAt(tokens, 0).StreamEnd? ==> r == TreeSpec.Done(None, 1)
  {
    var parser := new Parser(tokens);
    var token := parser.Scan();
    match token {
      case StreamStart(_) =>
        r := parser.ReadYaml();
      case StreamEnd =>
        r := TreeSpec.Done(None, parser.pos);
      case _ =>
        r := TreeSpec.Fail(TreeSpec.TopLevelSpin);
    }
  }
}
