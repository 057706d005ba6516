# ocyaml tree builder

A Dafny model of the recursive-descent tree builder in `ocyaml.c`, the C half
of the OCaml libyaml binding. The builder pulls libyaml tokens one at a time
and builds a document tree with three kinds of node:
- `Scalar`, OCaml tag 0;
- `Collection`, tag 1, a list of sub-trees;
- `Structure`, tag 2, a list of key/value pairs of sub-trees.

Modules:

- `LibYaml` (libyaml.dfy): the token kinds of libyaml, one constructor each, in libyaml's order.
  - The scanner is a finite token sequence. A scan reads the element at the cursor.
  - Past the end a scan yields `NoToken`, because libyaml hands out a zeroed token once the stream end has been produced.
  - `CopyString` is the string copy of the OCaml runtime. It measures with `strlen`, so it keeps the text before the first NUL.
- `Tree` (tree.dfy): the node datatypes, plus `Mirror`, which reverses every list at every depth.
  - A list slot holds an `Option<Node>`, and so does each side of a pair. This is because `read_yaml` can leave its result unset (OCaml `()`), and the builder stores that all the same.
- `TreeSpec` (tree_spec.dfy): what each reader computes, as a function of the token sequence and the cursor, with properties proved about them.
  - Loop state is passed as parameters: the consed list `tl` and the pair state.
  - A run the C code would never finish, would crash on, or would go on with after linking one mutable pair twice ends in `Fail` with its reason. The reason is the first defect the C code meets, in the order it meets them.
- `OcYaml` (ocyaml.dfy): the builder as it runs.
  - A `Parser` object holds the tokens and a cursor `pos` that every `Scan` advances.
  - `ReadYaml` dispatches on one token. `ReadStructure` and `ReadSequence` are `while` loops over the cursor that cons onto `tl`.
  - `Test` is the top-level driver.
  - Each method is proved to return exactly what its `TreeSpec` function describes. When that result is `Done`, the method also leaves the cursor right after the tokens it consumed.
- `Layout` (layout.dfy): the partner definition. `Emit` lays a tree out as indented block tokens. For trees whose collections are all non-empty, this is the token sequence libyaml produces, up to the scalar style: `Emit` writes every scalar `Plain`, while libyaml gives quoted text a quoted style. The builder drops the style, so the round trip does not depend on it.
  - The round trip states that reading such a layout returns the tree with every list reversed.
  - It also states that reading the layout of the mirrored tree returns the tree as written.
- `Streams` (streams.dfy): token streams for small documents, with what the driver returns for each.

How the model treats what the C code does:

- **Reverse order.** Lists are built by prepending. A mapping or a sequence therefore comes back last entry first, at every depth.
- **Skipped tokens.** A token that a body loop's `switch` does not name is consumed and changes nothing. This includes every flow token.
- **Unset results.** A value position holding anything but a block collection start or a scalar produces no value (`None`), and the builder stores that `None`.
- **`pair` local.** The C local `pair` is modelled as `NoPair`, `Pending(key)` or `Linked`.
  - A KEY always starts a new pair.
  - A VALUE reads its value first and then needs a pending pair. `Store_field` evaluates its value argument before it computes the field address, so at ocyaml.c:47 `read_yaml` runs before the store into `pair`. A failure inside the value's read is therefore reported before any problem with the pair.
- **Runs that do not end properly** give a `Failure`:
  - `InputExhausted`: a body loop reaches the end of the tokens. In C it would scan `NoToken` forever.
  - `TopLevelSpin`: the first token is neither STREAM-START nor STREAM-END. The C top-level loop never scans again and spins.
  - `ValueWithoutKey`: a VALUE comes before any KEY, and its value reads to the end. The store then goes to the unallocated `pair`.
  - `ValueReusesPair`: a second VALUE follows one KEY, and its value reads to the end. In C the loop goes on: the store overwrites the value of the pair already linked into the list, and the same pair is linked a second time. The model reports a failure instead of building that shared pair.
- **Termination.** Every recursion and loop decreases the number of tokens left.

The code returns every list last entry first, and it skips unexpected tokens without reporting them. `Streams.TwoEntriesReversed` and `Streams.ThreeItemsReversed` show the document `a: 1` / `b: 2` and the document `- x` / `- y` / `- z` coming back reversed.

An empty value is the most common way into a failure. With `a:` as the last entry (`Streams.EmptyLastValueFails`), the value's read consumes the mapping's BLOCK-END and the C loop hangs. With `a:` followed by `b: 2` (`Streams.EmptyValueSwallowsKey`), the value's read consumes the second KEY, so `2` meets a pair that is already linked.

## Model

| member | source | states |
|---|---|---|
| LibYaml.CopyString | ocyaml.c:122 | The copied text is a prefix of the token text with no NUL in it, and it stops only at a NUL or at the end. |
| Layout.NulFreeCopy | ocyaml.c:122 | A text without NUL is copied unchanged. |
| TreeSpec.ReadYaml | ocyaml.c:101-131 | Every call consumes at least one token. It ends exactly one token later with no value if and only if the token is not BLOCK-MAPPING-START, BLOCK-SEQUENCE-START or SCALAR. A failure is never the top-level spin. |
| TreeSpec.ReadStructure | ocyaml.c:28-66 | A finished mapping body consumed at least one token and ended right after a BLOCK-END. Its result is a Structure. |
| TreeSpec.ReadSequence | ocyaml.c:68-99 | A finished sequence body consumed at least one token and ended right after a BLOCK-END. Its result is a Collection. |
| TreeSpec.Test | ocyaml.c:149-169 | A value is produced only when the first token is STREAM-START. The run spins if and only if the first token is neither STREAM-START nor STREAM-END. |
| TreeSpec.EntryRun | ocyaml.c:38-52 | A KEY, its key, any unrecognised tokens, then a VALUE and its value cons exactly that key/value pair in front of the list, whatever pair was current before. Afterwards the new pair counts as linked. |
| TreeSpec.MostRecentKeyWins | ocyaml.c:38-52 | When two KEYs come before one VALUE, the first key is dropped. The consed entry pairs the most recent key with the value. |
| TreeSpec.SecondValueFails | ocyaml.c:44-51 | A VALUE after a completed pair, with only unrecognised tokens between them, first reads its value. A failure of that read is the result; otherwise the VALUE finds the pair already linked. |
| TreeSpec.ItemRun | ocyaml.c:78-85 | A BLOCK-ENTRY, its item and any unrecognised tokens cons exactly that item in front of the list. |
| TreeSpec.StructureKeepsAccumulated | ocyaml.c:48-51 | The entries consed before any point stay, in order, behind every entry read later. Nothing else in the result depends on them. |
| TreeSpec.SequenceKeepsAccumulated | ocyaml.c:81-84 | The items consed before any point stay, in order, behind every item read later. Nothing else in the result depends on them. |
| TreeSpec.StructureSkipsIgnored | ocyaml.c:56-59 | A run of tokens other than KEY, VALUE and BLOCK-END in a mapping body is consumed and changes nothing. |
| TreeSpec.SequenceSkipsIgnored | ocyaml.c:89-92 | A run of tokens other than BLOCK-ENTRY and BLOCK-END in a sequence body is consumed and changes nothing. |
| TreeSpec.StructureStopsAtEnd | ocyaml.c:53-62 | The mapping body returns right after the first BLOCK-END at its own level, with the list unchanged. |
| TreeSpec.SequenceStopsAtEnd | ocyaml.c:86-95 | The sequence body returns right after the first BLOCK-END at its own level, with the list unchanged. |
| OcYaml.Parser.Scan | ocyaml.c:36 | A scan yields the token at the cursor, or NoToken past the end, and advances the cursor by one. |
| OcYaml.Parser.ReadYaml | ocyaml.c:101-131 | The method returns exactly ReadYaml's result. On `Done` it leaves the cursor at the result's end. BLOCK-MAPPING-START and BLOCK-SEQUENCE-START hand over to the body readers one token on. A SCALAR gives its copied text with the style dropped. Any other token gives no value after one token. |
| OcYaml.Parser.ReadStructure | ocyaml.c:28-66 | The loop returns exactly ReadStructure's result from the starting cursor, with an empty list and no pair. On `Done` it leaves the cursor right after the body. |
| OcYaml.Parser.ReadSequence | ocyaml.c:68-99 | The loop returns exactly ReadSequence's result from the starting cursor, with an empty list. On `Done` it leaves the cursor right after the body. |
| OcYaml.Test | ocyaml.c:149-169 | The method returns exactly Test's result. On STREAM-START that is read_yaml from the second token. On STREAM-END it is no value. |
| Layout.ReadEmitted | ocyaml.c:101-131 | Reading the block layout of a tree returns its mirror image and stops right after the layout, whatever follows. Nested BLOCK-ENDs are consumed by the nested reads. |
| Layout.ReadEmittedItems | ocyaml.c:75-97 | One item is consed per BLOCK-ENTRY at the body's level, last item first, and the body ends after its BLOCK-END. |
| Layout.ReadEmittedEntries | ocyaml.c:35-64 | One entry is consed per KEY/VALUE pair at the body's level, last pair first. Each key is the value read after its KEY. |
| Layout.ReadDocument | ocyaml.c:149-169 | A stream of STREAM-START followed by a laid-out document gives the document's tree with every list reversed. |
| Layout.ReadMirroredDocument | ocyaml.c:149-169 | A stream laid out with every list reversed gives the tree in the order it was written. |
| Tree.MirrorTwice | ocyaml.c:48-51 | Reversing every list twice gives the tree back, so reversing the builder's result recovers source order. |
| Streams.TwoEntriesReversed | ocyaml.c:35-64 | `a: 1` / `b: 2` comes back as the Structure with `b: 2` first and `a: 1` second. |
| Streams.ThreeItemsReversed | ocyaml.c:75-97 | `- x` / `- y` / `- z` comes back as the Collection `z`, `y`, `x`. |
| Streams.FlowMappingUnread | ocyaml.c:125-130 | A flow mapping `{a: 1}` produces no value after one token. |
| Streams.ValueFirstFails | ocyaml.c:44-47 | A VALUE with no KEY before it in a mapping is a failure. |
| Streams.ValueReadBeforeStore | ocyaml.c:44-47 | A VALUE with no KEY before it, followed by an unclosed mapping, fails by running out of tokens in the value's read, before the store into the missing pair. |
| Streams.UnclosedMappingFails | ocyaml.c:35-61 | A mapping body with no BLOCK-END fails once the tokens run out. |
| Streams.EmptyLastValueFails | ocyaml.c:44-61 | With `a:` as the last entry, the empty value's read consumes the mapping's BLOCK-END. The body loop then runs out of tokens. |
| Streams.EmptyValueSwallowsKey | ocyaml.c:44-51 | With `a:` followed by `b: 2`, the empty value's read consumes the second KEY. The second VALUE then finds the first pair already linked. |

## Left out

- File and parser setup (ocyaml.c:138-148) is not modelled: `fopen`, `yaml_parser_initialize`, `yaml_parser_set_input_file` and the messages on `stderr`. These are I/O and foreign calls. The driver starts from a token sequence.
- The libyaml scanner is not modelled: byte decoding, indentation and escapes. Its output is the input token sequence. A scan error shows only as the `NoToken` it leaves behind.
- `yaml_token_delete` is not modelled. It releases memory and does not change the tree. It also zeroes the token. In the top-level loop this changes only which token the loop re-examines: the loop never scans again, so it spins either way, and `TopLevelSpin` models that.
- The OCaml FFI layer is replaced by Dafny datatypes and sequences: GC rooting (`CAMLparam`/`CAMLlocal`/`CAMLreturn`), `caml_alloc` and the heap layout of `Store_field`. `pair` is a registered local root, so the collector keeps it up to date across the nested reads.
- Aliasing through the mutable `pair` block is not modelled. On a second VALUE after one KEY the C code goes on. Once the value is read, it overwrites the value of the pair already linked and links that pair again. If the body then reaches its BLOCK-END, the Structure returned has two or more list cells sharing one pair that holds the key and the latest value. The model ends the run in the `ValueReusesPair` failure as soon as that value is read.
- Non-termination is not modelled as a run that never ends. A body loop that never sees BLOCK-END, and a first token the top-level loop never replaces, are reported as `InputExhausted` and `TopLevelSpin`.
- Source-order results and errors for unexpected tokens are not modelled: the code does not implement them.
- Flow collections are not modelled: the code does not handle them. Their tokens fall into the `default` branches.
- Layout.Emit: lays sequences out only in the indented form with BLOCK-SEQUENCE-START. A sequence nested as a mapping value without indentation is scanned by libyaml without that token, and `ReadEmitted` does not cover it.
- Layout.Emit: lays an empty collection out as its start token directly followed by BLOCK-END, which libyaml never produces. YAML writes an empty collection in flow form, `[]` or `{}`, and the builder reads that as no value. The round trip is exact for libyaml's output only on trees whose collections are all non-empty.
- The scalar token's length field and the scanner marks are not modelled. The copy depends only on the text up to its first NUL.
