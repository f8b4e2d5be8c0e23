# html5ever adapter layer, modelled in Dafny

This project models the layer that connects the html5ever tree builder to a host document model
across a C boundary (`src/html5ever/`). That layer has four parts:

- the C value types that carry names, attributes and append payloads as borrowed byte views
  (`types.rs`);
- the pull iterator through which the host reads a new element's attributes (`lib.rs`);
- the `TreeSink` adapter, which turns each tree-construction event into a host callback and keeps
  each element's qualified name and MathML integration-point flag in an append-only arena
  (`sink.rs`);
- the entry points: one-shot document and fragment parses, and a streaming session that is
  created, fed chunks, and then either finished or destroyed (`lib.rs`).

Modules, one per part:

| file | module | models |
|---|---|---|
| options.dfy | `Options` | the optional value used throughout |
| types.dfy | `Types` | `types.rs`: pointers, slices, `CNullable`, `CQualName`, `CAttribute`, `CNodeOrText`, and how the host reads each one back |
| utf8.dfy | `Utf8` | the well-formed UTF-8 check (`std::str::from_utf8`) that `feed` applies, following table 3-7 of the Unicode Standard, section 3.9 |
| attribute_iterator.dfy | `AttributeIterator` | `CAttributeIterator` with `next` and `count` |
| sink.dfy | `TreeSink` | `ElementData`, the `Sink` and its `TreeSink` methods |
| lib.dfy | `Lib` | `html5ever_parse_document` / `_fragment`, the `StreamingParser` lifecycle |

Modelling choices:

- A pointer is modelled by what it points at. `At(buf)` is a non-null pointer to a buffer holding
  `buf`. A slice `{ ptr, len }` shows the first `len` elements of that buffer. Every value type has
  a "read back" function (`ReadQualName`, `ReadAttribute`, `ReadNodeOrText`, `ToOption`) that
  states what the host sees.
- The host is modelled as a trace. Each callback the sink invokes is appended to `Sink.calls`, with
  its arguments. A callback's answer, such as the node handle returned by `create_element`,
  cannot be known to the adapter, so it is a `hostReply` parameter.
- A traced `create_element` call also carries, as a ghost field, the integration-point flag the
  tree builder gave. The host is not passed that flag. It is recorded so that the sink's invariant
  can tie each key's arena entry to both the name and the flag of its call.
- The host's node-to-metadata lookup (`get_data_callback`) is a parameter `getData`, a map from
  handle to arena key, passed to `ElemName` and `IsMathmlAnnotationXmlIntegrationPoint`.
- The arena is an append-only `seq<ElementData>`. An entry's key is its index. No method rewrites
  an existing entry, which models the arena's address stability.
- The streaming session keeps its phase (`Live`, `Finished`, `Destroyed`) and the chunks handed to
  `parser.process`. Finishing or destroying consumes the session in the Rust code; here that is the
  terminal phases, and every later call is excluded by a `requires`.
- The two foster-parenting operations call `panic!` in the Rust code. Here they return
  `Abort(message)` and invoke no callback.
- There is one `Sink` for document, fragment and streaming parses. Only its two foster-parenting
  operations abort.
- The entry points take no create-processing-instruction callback.
- The one-shot entry points build their own sink and decode the whole buffer with html5ever's
  lossy `from_utf8()`. The streaming `feed` instead drops any chunk that is not well-formed UTF-8.

## Model

| member | source | states |
|---|---|---|
| `Types.ViewOf` | src/html5ever/types.rs:92-93 | a view `{ x.as_ptr(), x.len() }` is readable, non-null, has the length of `x`, and reads back exactly `x` |
| `Types.DefaultSlice` | src/html5ever/types.rs:76-80 | `Slice::default()` is the null pointer with length 0 and reads back as empty |
| `Types.NullableNone` | src/html5ever/types.rs:62-64 | `none()` has tag 0 and the default value, and the host reads it as no value |
| `Types.NullableSome` | src/html5ever/types.rs:66-68 | `some(v)` has tag 1, and the host reads it as exactly `v` |
| `Types.CreateCQualName` | src/html5ever/types.rs:91-104 | the prefix is "none" (tag 0) iff the name has no prefix; otherwise it has tag 1 and the prefix's length; `ns` and `local` have the lengths of the name's parts; the host reads back exactly the name given |
| `Types.CreateCQualNameInjective` | src/html5ever/types.rs:91-104 | distinct names give distinct views |
| `Types.DefaultCQualName` | src/html5ever/types.rs:106-114 | the default name has a none prefix and null, empty `ns` and `local`; it reads back as the empty unprefixed name |
| `Types.DefaultCAttribute` | src/html5ever/types.rs:121-125 | the default attribute has the default name and a null, empty value |
| `AttributeIterator.Export` | src/html5ever/lib.rs:148-154 | the `CAttribute` built for an attribute is readable and reads back as that attribute |
| `AttributeIterator.Exhausted` | src/html5ever/lib.rs:142-144 | the "none" answer of `next` has tag 0 and carries the default attribute |
| `AttributeIterator.Step` | src/html5ever/lib.rs:141-154 | when the position equals the length, the host reads "none" and the position stays; otherwise it reads the attribute at the position, and the position grows by one |
| `AttributeIterator.Pull` | src/html5ever/lib.rs:141-154 | `k` successive calls of `next` give `k` answers, all readable, and the position stays within the list |
| `AttributeIterator.PullYieldsInOrder` | src/html5ever/lib.rs:141-154 | from any position, the i-th of `k` calls yields the attribute at position + i while one remains, and "none" from then on; the position ends at the end of the list at the latest |
| `AttributeIterator.ExactlyCountSucceed` | src/html5ever/lib.rs:136-161 | from position 0, call i succeeds iff i < count, reads back the i-th attribute in list order, and every later call reports none |
| `AttributeIterator.CAttributeIterator.constructor` | src/html5ever/sink.rs:129 | a new iterator holds exactly the attributes given, at position 0 |
| `AttributeIterator.CAttributeIterator.Next` | src/html5ever/lib.rs:136-155 | `next` answers and moves as `Step` says: at the end, tag 0 with the position unchanged, so an exhausted iterator stays exhausted; before it, tag 1 carrying the attribute at the position, and the position grows by exactly 1 |
| `AttributeIterator.CAttributeIterator.Count` | src/html5ever/lib.rs:157-161 | `count` is the length of the list and changes nothing, the position included |
| `TreeSink.NewElementData` | src/html5ever/sink.rs:38-43 | the metadata is a copy of the name and of the flags' integration-point bit |
| `TreeSink.EncodeChild` | src/html5ever/sink.rs:155-189 | text is sent with tag 1, a null node and a view of that text; a node with tag 0, that node and the empty slice; the host reads back the same child |
| `TreeSink.KeysAreNeverReused` | src/html5ever/sink.rs:125-138 | two different `create_element` calls hand out different keys, and each key's arena entry holds the name passed on its call |
| `TreeSink.CallRecorded` | src/html5ever/sink.rs:77-123 | recording a callback that allocates nothing keeps the arena and the trace in agreement |
| `TreeSink.ElementCreated` | src/html5ever/sink.rs:125-138 | handing out the next key on a create call, with the entry allocated for it, keeps the arena and the trace in agreement, including that every entry has a create call |
| `TreeSink.Sink.constructor` | src/html5ever/lib.rs:58-74 | a new sink has an empty arena, NoQuirks, no callbacks made, and the given document and context |
| `TreeSink.Sink.Finish` | src/html5ever/sink.rs:73-75 | `finish` invokes no callback and changes nothing |
| `TreeSink.Sink.ParseError` | src/html5ever/sink.rs:77-87 | `parse_error` forwards a view of the message as one callback and returns normally |
| `TreeSink.Sink.GetDocument` | src/html5ever/sink.rs:89-91 | `get_document` is the document handle the sink was built with |
| `TreeSink.Sink.SetQuirksMode` | src/html5ever/sink.rs:93-95 | the stored mode becomes the given one, and no callback is made |
| `TreeSink.Sink.SameNode` | src/html5ever/sink.rs:97-99 | `same_node` holds iff the two handles are the same address |
| `TreeSink.SameNodeIsEquivalence` | src/html5ever/sink.rs:97-99 | `same_node` is reflexive, symmetric and transitive |
| `TreeSink.Sink.GetTemplateContents` | src/html5ever/sink.rs:107-111 | the target is forwarded as one callback, and the host's answer is returned |
| `TreeSink.Sink.Pop` | src/html5ever/sink.rs:119-123 | the node is forwarded as one callback |
| `TreeSink.Sink.CreateElement` | src/html5ever/sink.rs:125-138 | exactly one entry, for the name and the flag given, is appended to the arena, and earlier entries are unchanged; the host gets its key, a view of the name, and a fresh iterator at position 0 over exactly the attributes; with a lookup that maps the returned handle to that key, `elem_name` gives the name and the integration-point query gives the flag |
| `TreeSink.Sink.ElemName` | src/html5ever/sink.rs:101-105 | in a consistent sink, the name `elem_name` returns for a handle is the one passed on the `create_element` call that was given the handle's key |
| `TreeSink.Sink.NameRoundTrip` | src/html5ever/sink.rs:101-105 | in every reachable state, if the host's lookup maps a handle returned by `create_element` to the key given on that call, `elem_name` returns the name passed on that call |
| `TreeSink.Sink.EntriesComeFromCreateCalls` | src/html5ever/sink.rs:125-138 | in every reachable state, each arena entry was allocated by a `create_element` call that handed out its key with that entry's name and flag |
| `TreeSink.Sink.IsMathmlAnnotationXmlIntegrationPoint` | src/html5ever/sink.rs:113-117 | in a consistent sink, the flag returned for a handle is the integration-point flag given on the `create_element` call that was given the handle's key |
| `TreeSink.Sink.IntegrationPointRoundTrip` | src/html5ever/sink.rs:113-117 | in every reachable state, if the host's lookup maps a handle returned by `create_element` to the key given on that call, the flag query returns the flag given on that call |
| `TreeSink.Sink.CreateComment` | src/html5ever/sink.rs:140-145 | a view of the text is forwarded as one callback, and the host's handle is returned |
| `TreeSink.Sink.CreatePi` | src/html5ever/sink.rs:147-153 | views of the target and the data are forwarded as one callback, and the host's handle is returned |
| `TreeSink.Sink.Append` | src/html5ever/sink.rs:155-189 | one append callback carrying the encoded child, which keeps its node-or-text tag |
| `TreeSink.Sink.AppendBeforeSibling` | src/html5ever/sink.rs:191-195 | always aborts, with message "append_before_sibling", and invokes no callback |
| `TreeSink.Sink.AppendBasedOnParentNode` | src/html5ever/sink.rs:197-207 | always aborts, with message "append_based_on_parent_node", and invokes no callback |
| `TreeSink.Sink.AppendDoctypeToDocument` | src/html5ever/sink.rs:209-221 | views of the name, the public id and the system id are forwarded as one callback |
| `TreeSink.Sink.AddAttrsIfMissing` | src/html5ever/sink.rs:223-233 | the target and a fresh iterator at position 0 over exactly the attributes are forwarded as one callback |
| `TreeSink.Sink.RemoveFromParent` | src/html5ever/sink.rs:235-239 | the target is forwarded as one callback |
| `TreeSink.Sink.ReparentChildren` | src/html5ever/sink.rs:241-245 | the node and the new parent are forwarded as one callback |
| `Lib.FragmentConfig` | src/html5ever/lib.rs:125-130 | a fragment is parsed in an unprefixed `body` context in the HTML namespace, with no attributes and scripting disabled |
| `Lib.StartRun` | src/html5ever/lib.rs:52-74 | the guard and sink construction both one-shot entry points share: no run iff the buffer is null or empty; otherwise a fresh sink in its initial state, the configuration given, and exactly the buffer's bytes |
| `Lib.ParseDocument` | src/html5ever/lib.rs:34-80 | with a null buffer or zero length, no parse starts and no sink exists; otherwise a document parse of exactly the buffer's bytes over a fresh sink in its initial state |
| `Lib.ParseFragment` | src/html5ever/lib.rs:82-133 | the same guard; otherwise a fragment parse of exactly the buffer's bytes, configured as `FragmentConfig`, over a fresh sink |
| `Lib.SessionLifecycle` | src/html5ever/lib.rs:191-302 | a session admits exactly the sequences "feed*, then at most one finish or destroy"; it is live iff only feeds happened, and Finished (Destroyed) iff the last call was finish (destroy) |
| `Lib.TerminalAdmitsNothing` | src/html5ever/lib.rs:272-302 | after finish or destroy, no further call is admitted |
| `Lib.Delivery` | src/html5ever/lib.rs:251-269 | one `feed` hands the parser at most one chunk: the bytes, exactly when the pointer is non-null, the length non-zero and the bytes well-formed UTF-8 |
| `Lib.DeliveredTextIsValid` | src/html5ever/lib.rs:258-268 | whatever is fed, the text the parser receives is well-formed UTF-8 |
| `Lib.WellFormedChunksAreAllDelivered` | src/html5ever/lib.rs:258-268 | when every chunk is non-empty and well-formed, the parser receives all of them, unchanged and in order |
| `Lib.SplitCharacterIsLost` | src/html5ever/lib.rs:258-269 | "é" fed in one chunk reaches the parser, but fed as two one-byte chunks it is dropped entirely |
| `Lib.StreamingParser.constructor` | src/html5ever/lib.rs:191-243 | a new session is live, holds a document parser that has been given nothing yet, and owns a fresh sink with an empty arena and NoQuirks |
| `Lib.StreamingParserFeed` | src/html5ever/lib.rs:245-270 | nothing happens on a null session; otherwise the session stays live and the parser's input grows by exactly `Delivery` of the chunk (nothing for a null or empty buffer, and nothing for bytes that are not UTF-8); the sink stays consistent and its arena and trace only grow, and the sink is entirely unchanged when nothing is delivered |
| `Lib.StreamingParserFinish` | src/html5ever/lib.rs:272-289 | nothing happens on null; otherwise the session moves to Finished and takes no more input; the sink stays consistent and its arena and trace only grow |
| `Lib.StreamingParserDestroy` | src/html5ever/lib.rs:291-302 | nothing happens on null; otherwise the session moves to Destroyed, without finishing the parser |

## Left out

- The html5ever tokenizer and tree builder are an external library. Which sink calls
  `parser.process` and `parser.finish()` make is theirs to decide, so the feed and finish
  contracts leave those calls open. They state only that the sink stays consistent and that its
  arena and trace only grow.
- Raw pointers, `transmute` lifetime erasure, `Box::into_raw`/`from_raw`, and the workaround for
  zeroed memory in `append` (sink.rs:158-170, lib.rs:209-214) are memory-safety plumbing. They are
  modelled by values, indices and consumed phases.
- The downcast of the type-erased parser and its `expect` (lib.rs:264-266, lib.rs:281-283) cannot
  fail here, because the session stores its state directly.
- The jemalloc memory statistics (lib.rs:22-24, lib.rs:163-182) are a debug-only diagnostic over
  a foreign allocator.
- vendor/netsurf/wrapper/wrapper.c, wrapper.h, include/lightpanda.h and
  src/data/public_suffix_list_gen.go are not part of this model. They are I/O over other
  libraries, or declarations only.
- The `ctx` pointer that every callback but `get_data_callback` receives is not recorded in the
  trace. It is the sink's constant `ctx` on every call.
- `get_data_callback` is a lookup parameter, not a traced call.
- The host's use of an iterator during its callback is not modelled. The trace records the
  iterator as it is handed over.
- The iterator is dropped when the callback returns (its storage is on the stack). The model does
  not express that lifetime.
- The one-shot entry points decode with html5ever's lossy `from_utf8()` adapter. That decoding is
  part of the external pipeline; the model records the raw bytes the parse is given.
- The example event sequences (the same events whether a document is fed in one chunk or two,
  a single doctype call for `<!DOCTYPE html>`, parse errors for mis-nested tags) are decisions of
  the tree builder. They are not modelled.
- `Lib.StreamingParserFeed`, `Lib.StreamingParserFinish`: state only that the sink's arena and
  trace are extended, not by which entries, because the tree builder decides those.
- Lengths (`usize`) are unbounded naturals. No arithmetic here can overflow, since a position
  never passes the list's length.
- `Sink` declares a `create_processing_instruction` callback field (sink.rs:57), but none of the
  three places that build a `Sink` sets it (lib.rs:58-74, lib.rs:106-122, lib.rs:216-232). The
  callback types `AddAttrsIfMissingCallback`, `GetTemplateContentsCallback`,
  `RemoveFromParentCallback`, `ReparentChildrenCallback` and `CreateProcessingInstruction` are not
  declared in types.rs either. Both are taken from their use in sink.rs, and `create_pi` is
  modelled as the forwarding at sink.rs:147-153.
- `feed` drops a chunk that is not well-formed UTF-8 as a whole. One consequence is stated in
  `Lib.SplitCharacterIsLost`: a well-formed text whose chunk boundary falls inside a character
  loses both pieces.
