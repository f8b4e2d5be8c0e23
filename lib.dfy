/** The entry points (src/html5ever/lib.rs): the one-shot document and fragment parses, and the
    streaming session with its create / feed / finish / destroy lifecycle.

    The tree builder itself is outside this model. What is modelled is what these entry points
    decide: whether a parse starts at all, with which sink and which configuration, and which text
    reaches the parser. */
module Lib {
  import opened Options
  import opened Types
  import opened Utf8
  import opened TreeSink

  /** How the tree builder is started. */
  datatype ParseConfig =
    | DocumentParse
    | FragmentParse(context: QualName, contextAttrs: seq<Attribute>, contextElementAllowsScripting: bool)

  /** `ns!(html)`: the HTML namespace. */
  function HtmlNamespace(): (ns: seq<u8>)
    ensures |ns| == 28
  {
    Ascii("http://www.w3.org/1999/xhtml")
  }

  /** The configuration of `html5ever_parse_fragment` (lib.rs:125-130): a `body` context element
      in the HTML namespace, without prefix and attributes, and scripting disabled. */
  function FragmentConfig(): (c: ParseConfig)
    ensures c.FragmentParse?
    ensures c.context == QualName(None, HtmlNamespace(), Ascii("body"))
    ensures c.contextAttrs == [] && !c.contextElementAllowsScripting
  {
    FragmentParse(QualName(None, HtmlNamespace(), Ascii("body")), [], false)
  }

  /** A parse the tree builder is started on: the fresh sink it drives, how it is configured, and
      the bytes it is given. */
  datatype EngineRun = EngineRun(sink: Sink, config: ParseConfig, input: seq<u8>)

  /** The guard of every entry point that takes bytes: a null pointer or a zero length is ignored
      (lib.rs:52, lib.rs:100, lib.rs:251). */
  predicate HasInput(html: StringSlice) {
    html.ptr.At? && html.len != 0
  }

  method StartRun(html: StringSlice, document: Ref, ctx: Ref, config: ParseConfig)
    returns (run: Option<EngineRun>)
    requires InBounds(html)
    ensures run.None? <==> !HasInput(html)
    ensures run.Some? ==>
      && fresh(run.value.sink) && run.value.sink.Initial(ctx, document) && run.value.sink.Valid()
      && run.value.config == config
      && run.value.input == Elements(html)
  {
    if html.ptr.Null? || html.len == 0 {
      return None;
    }
    var sink := new Sink(ctx, document);
    return Some(EngineRun(sink, config, Elements(html)));
  }

  /** `html5ever_parse_document` (lib.rs:34-80): nothing at all for a null or empty buffer;
      otherwise a document parse of the whole buffer over a fresh sink and arena. */
  method ParseDocument(html: StringSlice, document: Ref, ctx: Ref) returns (run: Option<EngineRun>)
    requires InBounds(html)
    ensures run.None? <==> !HasInput(html)
    ensures run.Some? ==>
      && fresh(run.value.sink) && run.value.sink.Initial(ctx, document) && run.value.sink.Valid()
      && run.value.config == DocumentParse
      && run.value.input == Elements(html)
  {
    run := StartRun(html, document, ctx, DocumentParse);
  }

  /** `html5ever_parse_fragment` (lib.rs:82-133): the same guard, then a fragment parse in a
      `body` context. */
  method ParseFragment(html: StringSlice, document: Ref, ctx: Ref) returns (run: Option<EngineRun>)
    requires InBounds(html)
    ensures run.None? <==> !HasInput(html)
    ensures run.Some? ==>
      && fresh(run.value.sink) && run.value.sink.Initial(ctx, document) && run.value.sink.Valid()
      && run.value.config == FragmentConfig()
      && run.value.input == Elements(html)
  {
    run := StartRun(html, document, ctx, FragmentConfig());
  }

  /** The phases of a streaming session. Finished and Destroyed are terminal: the session has been
      consumed, and any further call on it is undefined. */
  datatype Phase = Live | Finished | Destroyed

  datatype SessionOp = FeedOp | FinishOp | DestroyOp

  /** The phase after one operation, or None when the operation is not allowed. */
  function After(phase: Phase, op: SessionOp): Option<Phase> {
    if phase != Live then None
    else match op
      case FeedOp => Some(Live)
      case FinishOp => Some(Finished)
      case DestroyOp => Some(Destroyed)
  }

  /** The phase after a sequence of operations, or None when one of them is not allowed. */
  function Replay(phase: Phase, ops: seq<SessionOp>): Option<Phase>
    decreases |ops|
  {
    if ops == [] then Some(phase)
    else match After(phase, ops[0])
      case None => None
      case Some(next) => Replay(next, ops[1..])
  }

  /** A created session admits exactly the operation sequences "feed*, then at most one finish or
      destroy": it is still live iff only feeds happened, and it ends Finished or Destroyed iff the
      last operation was finish or destroy. */
  lemma {:induction false} SessionLifecycle(ops: seq<SessionOp>)
    ensures Replay(Live, ops).Some? <==> (forall i :: 0 <= i < |ops| - 1 ==> ops[i] == FeedOp)
    ensures Replay(Live, ops) == Some(Live) <==> (forall i :: 0 <= i < |ops| ==> ops[i] == FeedOp)
    ensures Replay(Live, ops) == Some(Finished) <==>
      ((forall i :: 0 <= i < |ops| - 1 ==> ops[i] == FeedOp) && |ops| > 0 && ops[|ops| - 1] == FinishOp)
    ensures Replay(Live, ops) == Some(Destroyed) <==>
      ((forall i :: 0 <= i < |ops| - 1 ==> ops[i] == FeedOp) && |ops| > 0 && ops[|ops| - 1] == DestroyOp)
    decreases |ops|
  {
    if ops != [] {
      var rest := ops[1..];
      if ops[0] == FeedOp {
        SessionLifecycle(rest);
        assert forall i :: 1 <= i < |ops| ==> ops[i] == rest[i - 1];
      } else {
        TerminalAdmitsNothing(if ops[0] == FinishOp then Finished else Destroyed, rest);
      }
    }
  }

  /** After finish or destroy no operation is allowed. */
  lemma TerminalAdmitsNothing(phase: Phase, ops: seq<SessionOp>)
    requires phase != Live
    ensures Replay(phase, ops) == if ops == [] then Some(phase) else None
  {
  }

  /** What one call of `feed` hands to the parser: the chunk, when the pointer is not null, the
      length not zero and the bytes are well-formed UTF-8; nothing otherwise. */
  function Delivery(html: StringSlice): (d: seq<seq<u8>>)
    requires InBounds(html)
    ensures |d| <= 1
    ensures d != [] <==> HasInput(html) && ValidUtf8(Elements(html))
    ensures d != [] ==> d[0] == Elements(html) && d[0] != []
  {
    if HasInput(html) && ValidUtf8(Elements(html)) then [Elements(html)] else []
  }

  /** What a sequence of `feed` calls with the chunks `chunks` hands to the parser, in order. */
  function DeliveredChunks(chunks: seq<seq<u8>>): seq<seq<u8>>
    decreases |chunks|
  {
    if chunks == [] then []
    else DeliveredChunks(chunks[..|chunks| - 1]) + Delivery(ViewOf(chunks[|chunks| - 1]))
  }

  /** The text the parser has received: the delivered chunks, joined. */
  function Joined(chunks: seq<seq<u8>>): seq<u8>
    decreases |chunks|
  {
    if chunks == [] then [] else Joined(chunks[..|chunks| - 1]) + chunks[|chunks| - 1]
  }

  /** Whatever is fed, the parser only ever receives well-formed UTF-8. */
  lemma {:induction false} DeliveredTextIsValid(chunks: seq<seq<u8>>)
    ensures ValidUtf8(Joined(DeliveredChunks(chunks)))
    decreases |chunks|
  {
    if chunks != [] {
      var init := chunks[..|chunks| - 1];
      var d := Delivery(ViewOf(chunks[|chunks| - 1]));
      DeliveredTextIsValid(init);
      var before := DeliveredChunks(init);
      if d == [] {
        assert before + d == before;
      } else {
        var all := before + d;
        assert all[..|all| - 1] == before;
        ValidConcat(Joined(before), d[0]);
      }
    }
  }

  /** When every chunk is non-empty, well-formed UTF-8, the parser receives all of them, unchanged
      and in order. */
  lemma {:induction false} WellFormedChunksAreAllDelivered(chunks: seq<seq<u8>>)
    requires forall i :: 0 <= i < |chunks| ==> chunks[i] != [] && ValidUtf8(chunks[i])
    ensures DeliveredChunks(chunks) == chunks
    decreases |chunks|
  {
    if chunks != [] {
      var init := chunks[..|chunks| - 1];
      WellFormedChunksAreAllDelivered(init);
      assert chunks == init + [chunks[|chunks| - 1]];
    }
  }

  /** A chunk boundary inside a character loses text: "é" (bytes C3 A9) fed as one chunk reaches
      the parser, but fed as two chunks of one byte each both are dropped, since neither is
      well-formed on its own. */
  lemma SplitCharacterIsLost()
    ensures ValidUtf8([0xC3, 0xA9])
    ensures DeliveredChunks([[0xC3, 0xA9]]) == [[0xC3, 0xA9]]
    ensures DeliveredChunks([[0xC3], [0xA9]]) == []
  {
    var whole: seq<u8> := [0xC3, 0xA9];
    var lead: seq<u8> := [0xC3];
    var trail: seq<u8> := [0xA9];
    assert CharLength(whole) == 2 && whole[2..] == [];
    assert CharLength(lead) == 0 && !ValidUtf8(lead);
    assert CharLength(trail) == 0 && !ValidUtf8(trail);
    var one: seq<seq<u8>> := [whole];
    assert one[..0] == [];
    assert DeliveredChunks(one) == [] + Delivery(ViewOf(whole));
    var two: seq<seq<u8>> := [lead, trail];
    assert two[..1] == [lead] && [lead][..0] == [];
    assert DeliveredChunks([lead]) == [] + Delivery(ViewOf(lead)) == [];
    assert DeliveredChunks(two) == DeliveredChunks([lead]) + Delivery(ViewOf(trail));
  }

  /** `StreamingParser` (lib.rs:184-189): the session owns the arena (here the sink's) and the
      parser state, of which the model keeps the chunks handed to `parser.process`. */
  class StreamingParser {
    const sink: Sink
    const config: ParseConfig
    var processed: seq<seq<u8>>
    var phase: Phase

    /** The sink is consistent, and the parser has only been given well-formed, non-empty text. */
    ghost predicate Valid()
      reads this, sink
    {
      && sink.Valid()
      && forall i :: 0 <= i < |processed| ==> processed[i] != [] && ValidUtf8(processed[i])
    }

    /** `html5ever_streaming_parser_create` (lib.rs:191-243): a new arena, a sink over it with
        NoQuirks, and a document parser that has been given nothing yet. */
    constructor (document: Ref, ctx: Ref)
      ensures Valid()
      ensures fresh(sink) && sink.Initial(ctx, document)
      ensures config == DocumentParse
      ensures processed == [] && phase == Live
    {
      sink := new Sink(ctx, document);
      config := DocumentParse;
      processed := [];
      phase := Live;
    }
  }

  /** `html5ever_streaming_parser_feed` (lib.rs:245-270): nothing on a null session, a null pointer
      or a zero length; a chunk that is not well-formed UTF-8 is dropped without a word; otherwise
      the chunk goes to the parser. The session stays live. The parser may drive the sink while it
      processes the chunk: the sink stays consistent, and its arena and trace only grow, so every
      key handed out earlier still names the same entry. */
  method StreamingParserFeed(session: StreamingParser?, html: StringSlice)
    requires InBounds(html)
    requires session != null ==> session.Valid() && session.phase == Live
    modifies if session == null then {} else {session, session.sink}
    ensures session != null ==>
      && session.Valid()
      && Some(session.phase) == After(old(session.phase), FeedOp)
      && session.processed == old(session.processed) + Delivery(html)
      && old(session.sink.arena) <= session.sink.arena
      && old(session.sink.calls) <= session.sink.calls
      && (Delivery(html) == [] ==> unchanged(session.sink))
  {
    if session == null || html.ptr.Null? || html.len == 0 {
      return;
    }
    var bytes := Elements(html);
    if ValidUtf8(bytes) {
      session.processed := session.processed + [bytes];
    }
  }

  /** `html5ever_streaming_parser_finish` (lib.rs:272-289): nothing on null; otherwise the parser
      is finished, which may still drive the sink while it drains its input and ends with the
      sink's `finish`, and the session is consumed. The sink stays consistent, and its arena and
      trace only grow. */
  method StreamingParserFinish(session: StreamingParser?)
    requires session != null ==> session.Valid() && session.phase == Live
    modifies if session == null then {} else {session, session.sink}
    ensures session != null ==>
      && session.Valid()
      && Some(session.phase) == After(old(session.phase), FinishOp)
      && session.processed == old(session.processed)
      && old(session.sink.arena) <= session.sink.arena
      && old(session.sink.calls) <= session.sink.calls
  {
    if session == null {
      return;
    }
    session.sink.Finish();
    session.phase := Finished;
  }

  /** `html5ever_streaming_parser_destroy` (lib.rs:291-302): nothing on null; otherwise the
      session is consumed without finishing the parser. */
  method StreamingParserDestroy(session: StreamingParser?)
    requires session != null ==> session.Valid() && session.phase == Live
    modifies session
    ensures session != null ==>
      && session.Valid()
      && Some(session.phase) == After(old(session.phase), DestroyOp)
      && session.processed == old(session.processed)
  {
    if session == null {
      return;
    }
    session.phase := Destroyed;
  }
}
