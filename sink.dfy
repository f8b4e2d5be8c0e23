/** The tree-sink adapter (src/html5ever/sink.rs): the `TreeSink` implementation through which the
    tree builder drives the host document model, and its arena of element metadata.

    The host is seen through what the adapter does to it: every callback the adapter invokes is
    appended to `calls`, with the arguments it passes. What the host answers (the handles returned by
    its create callbacks, the template contents) is not known to the adapter and arrives as a
    `hostReply` parameter; the host's node-to-metadata lookup (`get_data_callback`) is a map from
    handles to arena keys. An arena entry is addressed by its index, which is the key the host
    stores beside the node. */
module TreeSink {
  import opened Types
  import opened AttributeIterator

  /** html5ever's `QuirksMode`. */
  datatype QuirksMode = Quirks | LimitedQuirks | NoQuirks

  /** The part of html5ever's `ElementFlags` that reaches the adapter. */
  datatype ElementFlags = ElementFlags(template: bool, mathmlAnnotationXmlIntegrationPoint: bool)

  /** `ElementData` (sink.rs:33-36): what the arena keeps per element. */
  datatype ElementData = ElementData(qname: QualName, mathmlAnnotationXmlIntegrationPoint: bool)

  /** `ElementData::new` (sink.rs:38-43): a copy of the name and the integration-point flag. */
  function NewElementData(qname: QualName, flags: ElementFlags): (d: ElementData)
    ensures d.qname == qname
    ensures d.mathmlAnnotationXmlIntegrationPoint == flags.mathmlAnnotationXmlIntegrationPoint
  {
    ElementData(qname, flags.mathmlAnnotationXmlIntegrationPoint)
  }

  /** One invocation of a host callback, with what was passed to it and, for the callbacks that
      answer, the answer. Every callback but `get_data_callback` also receives the sink's `ctx`.
      A create call also records, as a ghost, the integration-point flag the tree builder gave
      `create_element`; the host is not passed it, the arena keeps it. */
  datatype HostCall =
    | ParseErrorCall(message: StringSlice)
    | PopCall(node: Ref)
    | GetTemplateContentsCall(target: Ref, reply: Ref)
    | CreateElementCall(key: nat, name: CQualName, attrs: CAttributeIterator, reply: Ref,
                        ghost integrationPoint: bool)
    | CreateCommentCall(text: StringSlice, reply: Ref)
    | CreateProcessingInstructionCall(piTarget: StringSlice, piData: StringSlice, reply: Ref)
    | AppendCall(parent: Ref, child: CNodeOrText)
    | AppendDoctypeToDocumentCall(doctypeName: StringSlice, publicId: StringSlice, systemId: StringSlice)
    | AddAttrsIfMissingCall(target: Ref, attrs: CAttributeIterator)
    | RemoveFromParentCall(target: Ref)
    | ReparentChildrenCall(node: Ref, newParent: Ref)

  /** The outcome of a tree operation this adapter does not support: `panic!` with a message. */
  datatype Unsupported = Abort(message: string)

  /** The `CNodeOrText` that `append` passes for a child (sink.rs:155-189): text goes with tag 1
      and a null node, a node with tag 0 and the empty slice; the host reads back that child. */
  function EncodeChild(child: NodeOrText): (c: CNodeOrText)
    ensures ReadableNodeOrText(c) && ReadNodeOrText(c) == child
    ensures child.AppendText? ==> c.tag == 1 && c.node == NullRef && c.text.len == |child.text|
    ensures child.AppendNode? ==> c.tag == 0 && c.node == child.node && c.text == DefaultSlice()
  {
    match child
    case AppendText(t) => CNodeOrText(1, NullRef, ViewOf(t))
    case AppendNode(n) => CNodeOrText(0, n, DefaultSlice())
  }

  /** Some create call in `calls` handed out the key `k`. */
  ghost predicate HandedOut(calls: seq<HostCall>, k: nat) {
    exists i :: 0 <= i < |calls| && calls[i].CreateElementCall? && calls[i].key == k
  }

  /** The arena and the host calls agree: each key handed to the host names an arena entry whose
      name is the one passed beside it and whose flag is the one given on that call, no key is
      handed out twice, and every arena entry was made by a create call that handed out its key. */
  ghost predicate ArenaMatchesCalls(arena: seq<ElementData>, calls: seq<HostCall>) {
    && (forall i :: 0 <= i < |calls| && calls[i].CreateElementCall? ==>
          && calls[i].key < |arena|
          && calls[i].name == CreateCQualName(arena[calls[i].key].qname)
          && calls[i].integrationPoint == arena[calls[i].key].mathmlAnnotationXmlIntegrationPoint)
    && (forall i, j :: 0 <= i < j < |calls| && calls[i].CreateElementCall? && calls[j].CreateElementCall? ==>
          calls[i].key != calls[j].key)
    && (forall k :: 0 <= k < |arena| ==> HandedOut(calls, k))
  }

  /** Recording a call that allocates nothing keeps the arena and the trace in agreement. */
  lemma CallRecorded(arena: seq<ElementData>, calls: seq<HostCall>, c: HostCall)
    requires ArenaMatchesCalls(arena, calls) && !c.CreateElementCall?
    ensures ArenaMatchesCalls(arena, calls + [c])
  {
    forall k | 0 <= k < |arena|
      ensures HandedOut(calls + [c], k)
    {
      assert HandedOut(calls, k);
      var i :| 0 <= i < |calls| && calls[i].CreateElementCall? && calls[i].key == k;
      assert (calls + [c])[i] == calls[i];
    }
  }

  /** A create call that hands out the next key, with the name and flag of the entry allocated for
      it, keeps the arena and the trace in agreement. */
  lemma ElementCreated(arena: seq<ElementData>, calls: seq<HostCall>, d: ElementData, c: HostCall)
    requires ArenaMatchesCalls(arena, calls)
    requires c.CreateElementCall? && c.key == |arena|
    requires c.name == CreateCQualName(d.qname) && c.integrationPoint == d.mathmlAnnotationXmlIntegrationPoint
    ensures ArenaMatchesCalls(arena + [d], calls + [c])
  {
    var arena', calls' := arena + [d], calls + [c];
    forall k | 0 <= k < |arena'|
      ensures HandedOut(calls', k)
    {
      if k == |arena| {
        assert calls'[|calls|] == c;
      } else {
        assert HandedOut(calls, k);
        var i :| 0 <= i < |calls| && calls[i].CreateElementCall? && calls[i].key == k;
        assert calls'[i] == calls[i];
      }
    }
  }

  /** Keys handed out on different create calls name different elements, whose names are the ones
      passed on those calls. */
  lemma KeysAreNeverReused(arena: seq<ElementData>, calls: seq<HostCall>, i: nat, j: nat)
    requires ArenaMatchesCalls(arena, calls)
    requires i < |calls| && j < |calls| && i != j
    requires calls[i].CreateElementCall? && calls[j].CreateElementCall?
    ensures calls[i].key != calls[j].key
    ensures arena[calls[i].key].qname == ReadQualName(calls[i].name)
  {
    if j < i {
      assert calls[j].key != calls[i].key;
    }
  }

  /** `Sink` (sink.rs:46-63) with the arena it borrows. */
  class Sink {
    const ctx: Ref
    const document: Ref
    var arena: seq<ElementData>
    var quirksMode: QuirksMode
    var calls: seq<HostCall>

    ghost predicate Valid()
      reads this
    {
      ArenaMatchesCalls(arena, calls)
    }

    /** The sink built by the entry points (lib.rs:58-74, lib.rs:216-232): an empty arena,
        NoQuirks, and nothing said to the host yet. */
    ghost predicate Initial(ctx: Ref, document: Ref)
      reads this
    {
      this.ctx == ctx && this.document == document
      && arena == [] && quirksMode == NoQuirks && calls == []
    }

    constructor (ctx: Ref, document: Ref)
      ensures Initial(ctx, document) && Valid()
    {
      this.ctx := ctx;
      this.document := document;
      arena := [];
      quirksMode := NoQuirks;
      calls := [];
    }

    /** `finish` (sink.rs:73-75): the end of the events; nothing reaches the host. */
    method Finish()
      requires Valid()
      ensures Valid()
      ensures calls == old(calls) && arena == old(arena)
    {
    }

    /** `parse_error` (sink.rs:77-87): forwards a view of the message and returns, so parsing goes on. */
    method ParseError(message: seq<u8>)
      requires Valid()
      modifies this
      ensures Valid()
      ensures calls == old(calls) + [ParseErrorCall(ViewOf(message))]
      ensures arena == old(arena) && quirksMode == old(quirksMode)
    {
      CallRecorded(arena, calls, ParseErrorCall(ViewOf(message)));
      calls := calls + [ParseErrorCall(ViewOf(message))];
    }

    /** `get_document` (sink.rs:89-91): the document handle given when the sink was made. */
    function GetDocument(): (d: Ref)
      ensures d == document
    {
      document
    }

    /** `set_quirks_mode` (sink.rs:93-95): overwrites the stored mode; the host is not told. */
    method SetQuirksMode(mode: QuirksMode)
      requires Valid()
      modifies this
      ensures Valid()
      ensures quirksMode == mode
      ensures calls == old(calls) && arena == old(arena)
    {
      quirksMode := mode;
    }

    /** `same_node` (sink.rs:97-99): address identity, never a comparison of contents. */
    function SameNode(x: Ref, y: Ref): (r: bool)
      ensures r <==> x == y
    {
      x == y
    }

    /** The host's lookup resolves `target` to an entry of the arena, as it does for every node
        made by `create_element` (otherwise the Rust code dereferences a wild pointer). */
    ghost predicate Resolves(target: Ref, getData: map<Ref, nat>)
      reads this
    {
      target in getData && getData[target] < |arena|
    }

    /** `elem_name` (sink.rs:101-105): the name kept in the arena entry the host associates with
        `target`, which is the name passed on the create call that was given that key. */
    function ElemName(target: Ref, getData: map<Ref, nat>): (name: QualName)
      reads this
      requires Resolves(target, getData)
      ensures Valid() ==> forall i :: 0 <= i < |calls| && calls[i].CreateElementCall? && calls[i].key == getData[target] ==>
        calls[i].name == CreateCQualName(name)
    {
      arena[getData[target]].qname
    }

    /** `is_mathml_annotation_xml_integration_point` (sink.rs:113-117): the flag kept in that entry,
        which is the flag given on the create call that was given that key. */
    function IsMathmlAnnotationXmlIntegrationPoint(target: Ref, getData: map<Ref, nat>): (flag: bool)
      reads this
      requires Resolves(target, getData)
      ensures Valid() ==> forall i :: 0 <= i < |calls| && calls[i].CreateElementCall? && calls[i].key == getData[target] ==>
        calls[i].integrationPoint == flag
    {
      arena[getData[target]].mathmlAnnotationXmlIntegrationPoint
    }

    /** `get_template_contents` (sink.rs:107-111): asks the host and returns its answer. */
    method GetTemplateContents(target: Ref, hostReply: Ref) returns (contents: Ref)
      requires Valid()
      modifies this
      ensures Valid()
      ensures contents == hostReply
      ensures calls == old(calls) + [GetTemplateContentsCall(target, hostReply)]
      ensures arena == old(arena) && quirksMode == old(quirksMode)
    {
      CallRecorded(arena, calls, GetTemplateContentsCall(target, hostReply));
      calls := calls + [GetTemplateContentsCall(target, hostReply)];
      contents := hostReply;
    }

    /** `pop` (sink.rs:119-123). */
    method Pop(node: Ref)
      requires Valid()
      modifies this
      ensures Valid()
      ensures calls == old(calls) + [PopCall(node)]
      ensures arena == old(arena) && quirksMode == old(quirksMode)
    {
      CallRecorded(arena, calls, PopCall(node));
      calls := calls + [PopCall(node)];
    }

    /** `create_element` (sink.rs:125-138): allocates one arena entry at the next key, leaving the
        earlier entries where they are, and hands the host that key, a view of the name and an
        iterator at position 0 over exactly `attrs`; returns the host's handle. */
    method CreateElement(name: QualName, attrs: seq<Attribute>, flags: ElementFlags, hostReply: Ref)
      returns (node: Ref)
      requires Valid()
      modifies this
      ensures Valid()
      ensures arena == old(arena) + [NewElementData(name, flags)]
      ensures |calls| == |old(calls)| + 1 && calls[..|old(calls)|] == old(calls)
      ensures var call := calls[|calls| - 1];
        && call.CreateElementCall?
        && call.key == |old(arena)|
        && call.name == CreateCQualName(name)
        && fresh(call.attrs) && call.attrs.vec == attrs && call.attrs.pos == 0
        && call.reply == hostReply
        && call.integrationPoint == flags.mathmlAnnotationXmlIntegrationPoint
      ensures node == hostReply
      ensures forall getData: map<Ref, nat> | hostReply in getData && getData[hostReply] == |old(arena)| ::
        && Resolves(hostReply, getData)
        && ElemName(hostReply, getData) == name
        && IsMathmlAnnotationXmlIntegrationPoint(hostReply, getData) == flags.mathmlAnnotationXmlIntegrationPoint
      ensures quirksMode == old(quirksMode)
    {
      var key := |arena|;
      var it := new CAttributeIterator(attrs);
      var call := CreateElementCall(key, CreateCQualName(name), it, hostReply, flags.mathmlAnnotationXmlIntegrationPoint);
      ElementCreated(arena, calls, NewElementData(name, flags), call);
      arena := arena + [NewElementData(name, flags)];
      calls := calls + [call];
      node := hostReply;
    }

    /** `create_comment` (sink.rs:140-145). */
    method CreateComment(text: seq<u8>, hostReply: Ref) returns (node: Ref)
      requires Valid()
      modifies this
      ensures Valid()
      ensures node == hostReply
      ensures calls == old(calls) + [CreateCommentCall(ViewOf(text), hostReply)]
      ensures arena == old(arena) && quirksMode == old(quirksMode)
    {
      CallRecorded(arena, calls, CreateCommentCall(ViewOf(text), hostReply));
      calls := calls + [CreateCommentCall(ViewOf(text), hostReply)];
      node := hostReply;
    }

    /** `create_pi` (sink.rs:147-153): forwards views of the target and the data. */
    method CreatePi(target: seq<u8>, data: seq<u8>, hostReply: Ref) returns (node: Ref)
      requires Valid()
      modifies this
      ensures Valid()
      ensures node == hostReply
      ensures calls == old(calls) + [CreateProcessingInstructionCall(ViewOf(target), ViewOf(data), hostReply)]
      ensures arena == old(arena) && quirksMode == old(quirksMode)
    {
      CallRecorded(arena, calls, CreateProcessingInstructionCall(ViewOf(target), ViewOf(data), hostReply));
      calls := calls + [CreateProcessingInstructionCall(ViewOf(target), ViewOf(data), hostReply)];
      node := hostReply;
    }

    /** `append` (sink.rs:155-189): forwards the child with its discriminant. */
    method Append(parent: Ref, child: NodeOrText)
      requires Valid()
      modifies this
      ensures Valid()
      ensures calls == old(calls) + [AppendCall(parent, EncodeChild(child))]
      ensures arena == old(arena) && quirksMode == old(quirksMode)
    {
      CallRecorded(arena, calls, AppendCall(parent, EncodeChild(child)));
      calls := calls + [AppendCall(parent, EncodeChild(child))];
    }

    /** `append_before_sibling` (sink.rs:191-195): foster parenting is not supported; the call
        aborts and the host hears nothing. */
    method AppendBeforeSibling(sibling: Ref, child: NodeOrText) returns (outcome: Unsupported)
      ensures outcome == Abort("append_before_sibling")
    {
      outcome := Abort("append_before_sibling");
    }

    /** `append_based_on_parent_node` (sink.rs:197-207): likewise aborts. */
    method AppendBasedOnParentNode(element: Ref, prevElement: Ref, child: NodeOrText)
      returns (outcome: Unsupported)
      ensures outcome == Abort("append_based_on_parent_node")
    {
      outcome := Abort("append_based_on_parent_node");
    }

    /** `append_doctype_to_document` (sink.rs:209-221): forwards views of the three strings. */
    method AppendDoctypeToDocument(name: seq<u8>, publicId: seq<u8>, systemId: seq<u8>)
      requires Valid()
      modifies this
      ensures Valid()
      ensures calls == old(calls) + [AppendDoctypeToDocumentCall(ViewOf(name), ViewOf(publicId), ViewOf(systemId))]
      ensures arena == old(arena) && quirksMode == old(quirksMode)
    {
      CallRecorded(arena, calls, AppendDoctypeToDocumentCall(ViewOf(name), ViewOf(publicId), ViewOf(systemId)));
      calls := calls + [AppendDoctypeToDocumentCall(ViewOf(name), ViewOf(publicId), ViewOf(systemId))];
    }

    /** `add_attrs_if_missing` (sink.rs:223-233): hands the host an iterator at position 0 over
        exactly `attrs`; the merge is the host's. */
    method AddAttrsIfMissing(target: Ref, attrs: seq<Attribute>)
      requires Valid()
      modifies this
      ensures Valid()
      ensures |calls| == |old(calls)| + 1 && calls[..|old(calls)|] == old(calls)
      ensures var call := calls[|calls| - 1];
        && call.AddAttrsIfMissingCall?
        && call.target == target
        && fresh(call.attrs) && call.attrs.vec == attrs && call.attrs.pos == 0
      ensures arena == old(arena) && quirksMode == old(quirksMode)
    {
      var it := new CAttributeIterator(attrs);
      CallRecorded(arena, calls, AddAttrsIfMissingCall(target, it));
      calls := calls + [AddAttrsIfMissingCall(target, it)];
    }

    /** `remove_from_parent` (sink.rs:235-239). */
    method RemoveFromParent(target: Ref)
      requires Valid()
      modifies this
      ensures Valid()
      ensures calls == old(calls) + [RemoveFromParentCall(target)]
      ensures arena == old(arena) && quirksMode == old(quirksMode)
    {
      CallRecorded(arena, calls, RemoveFromParentCall(target));
      calls := calls + [RemoveFromParentCall(target)];
    }

    /** `reparent_children` (sink.rs:241-245). */
    method ReparentChildren(node: Ref, newParent: Ref)
      requires Valid()
      modifies this
      ensures Valid()
      ensures calls == old(calls) + [ReparentChildrenCall(node, newParent)]
      ensures arena == old(arena) && quirksMode == old(quirksMode)
    {
      CallRecorded(arena, calls, ReparentChildrenCall(node, newParent));
      calls := calls + [ReparentChildrenCall(node, newParent)];
    }

    /** The metadata round trip, in every state the sink can reach: when the host's lookup maps the
        handle it returned from a `create_element` call to the key it was given on that call,
        `elem_name` answers with the very name passed on that call. */
    lemma NameRoundTrip(i: nat, getData: map<Ref, nat>)
      requires Valid()
      requires i < |calls| && calls[i].CreateElementCall?
      requires calls[i].reply in getData && getData[calls[i].reply] == calls[i].key
      ensures Resolves(calls[i].reply, getData)
      ensures ElemName(calls[i].reply, getData) == ReadQualName(calls[i].name)
    {
    }

    /** Every arena entry comes from a `create_element` call: there is a call that handed out its
        key, passing a view of the entry's name and giving the entry's flag. */
    lemma EntriesComeFromCreateCalls(k: nat)
      requires Valid() && k < |arena|
      ensures exists i ::
        && 0 <= i < |calls| && calls[i].CreateElementCall? && calls[i].key == k
        && ReadQualName(calls[i].name) == arena[k].qname
        && calls[i].integrationPoint == arena[k].mathmlAnnotationXmlIntegrationPoint
    {
      assert HandedOut(calls, k);
      var i :| 0 <= i < |calls| && calls[i].CreateElementCall? && calls[i].key == k;
      assert ReadQualName(calls[i].name) == arena[k].qname;
    }

    /** The same round trip for the flag: `is_mathml_annotation_xml_integration_point` answers, for
        the handle of any `create_element` call, with the flag given on that call. */
    lemma IntegrationPointRoundTrip(i: nat, getData: map<Ref, nat>)
      requires Valid()
      requires i < |calls| && calls[i].CreateElementCall?
      requires calls[i].reply in getData && getData[calls[i].reply] == calls[i].key
      ensures Resolves(calls[i].reply, getData)
      ensures IsMathmlAnnotationXmlIntegrationPoint(calls[i].reply, getData) == calls[i].integrationPoint
    {
    }
  }

  /** `same_node` is an equivalence relation on handles. */
  lemma SameNodeIsEquivalence(s: Sink, x: Ref, y: Ref, z: Ref)
    ensures s.SameNode(x, x)
    ensures s.SameNode(x, y) == s.SameNode(y, x)
    ensures s.SameNode(x, y) && s.SameNode(y, z) ==> s.SameNode(x, z)
  {
  }
}
