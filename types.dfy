/** The value types that cross the boundary between the tree builder and the host document model
    (src/html5ever/types.rs), together with the way the host reads each of them back.

    Pointers are modelled by what they point at: a non-null pointer `At(buf)` stands for the start of
    a buffer whose elements are `buf`, and a slice `{ ptr, len }` views the first `len` of them.
    A node handle is an opaque address chosen by the host. */
module Types {
  import opened Options

  /** An unsigned byte: the element type of every text view (`c_uchar`) and of the C tags (`u8`). */
  type u8 = x: int | 0 <= x < 0x100

  /** A raw pointer to the first element of a buffer holding `buf`, or the null pointer. */
  datatype Ptr<T> = Null | At(buf: seq<T>)

  /** An opaque host node handle (`Ref = *const c_void`). */
  datatype Ref = NullRef | Handle(addr: nat)

  /** A borrowed view `{ ptr, len }` (`Slice<T>`); text is passed as `Slice<u8>` (`StringSlice`). */
  datatype Slice<T> = Slice(ptr: Ptr<T>, len: nat)

  type StringSlice = Slice<u8>

  /** A non-null slice must not run past the end of what its pointer points at. */
  predicate InBounds<T>(s: Slice<T>) {
    s.ptr.At? ==> s.len <= |s.ptr.buf|
  }

  /** A slice the host may read: in bounds, and of length 0 when its pointer is null. */
  predicate Readable<T>(s: Slice<T>) {
    InBounds(s) && (s.ptr.Null? ==> s.len == 0)
  }

  /** The elements a readable slice shows to whoever reads it. */
  function Elements<T>(s: Slice<T>): (r: seq<T>)
    requires Readable(s)
    ensures |r| == s.len
  {
    match s.ptr
    case Null => []
    case At(buf) => buf[..s.len]
  }

  /** The view `StringSlice { ptr: x.as_ptr(), len: x.len() }` of a whole string or vector. */
  function ViewOf<T>(xs: seq<T>): (r: Slice<T>)
    ensures Readable(r) && r.ptr.At? && r.len == |xs|
    ensures Elements(r) == xs
  {
    Slice(At(xs), |xs|)
  }

  /** `Slice::default()`: the null pointer with length 0 (types.rs:76-80). */
  function DefaultSlice<T>(): (r: Slice<T>)
    ensures r.ptr.Null? && r.len == 0
    ensures Readable(r) && Elements(r) == []
  {
    Slice(Null, 0)
  }

  /** `CNullable<T>`: a tag (0 = none, 1 = some) followed by a value (types.rs:56-60). */
  datatype CNullable<T> = CNullable(tag: u8, value: T)

  /** The two tags the C side understands. */
  predicate WellTagged<T>(n: CNullable<T>) {
    n.tag == 0 || n.tag == 1
  }

  /** How the host reads a nullable value: tag 1 carries a value, tag 0 carries none. */
  function ToOption<T>(n: CNullable<T>): Option<T>
    requires WellTagged(n)
  {
    if n.tag == 1 then Some(n.value) else None
  }

  /** `CNullable::none()`: tag 0 and the default value of `T`. Dafny has no `Default` trait here,
      so the default is passed in. */
  function NullableNone<T>(default: T): (r: CNullable<T>)
    ensures WellTagged(r) && ToOption(r) == None
    ensures r.tag == 0 && r.value == default
  {
    CNullable(0, default)
  }

  /** `CNullable::some(v)`: tag 1 carrying exactly `v`. */
  function NullableSome<T>(v: T): (r: CNullable<T>)
    ensures WellTagged(r) && ToOption(r) == Some(v)
    ensures r.tag == 1
  {
    CNullable(1, v)
  }

  /** html5ever's `QualName`: optional prefix, namespace and local name (their text as bytes). */
  datatype QualName = QualName(prefix: Option<seq<u8>>, ns: seq<u8>, local: seq<u8>)

  /** html5ever's `Attribute`: a qualified name and a value. */
  datatype Attribute = Attribute(name: QualName, value: seq<u8>)

  /** html5ever's `NodeOrText`: the child of an append, an existing node or a run of text. */
  datatype NodeOrText = AppendNode(node: Ref) | AppendText(text: seq<u8>)

  /** `CQualName` (types.rs:84-89). */
  datatype CQualName = CQualName(prefix: CNullable<StringSlice>, ns: StringSlice, local: StringSlice)

  /** `CAttribute` (types.rs:116-120). */
  datatype CAttribute = CAttribute(name: CQualName, value: StringSlice)

  /** `CNodeOrText`: tag 0 = node, 1 = text (types.rs:132-137). */
  datatype CNodeOrText = CNodeOrText(tag: u8, node: Ref, text: StringSlice)

  predicate ReadableQualName(c: CQualName) {
    && WellTagged(c.prefix)
    && (c.prefix.tag == 1 ==> Readable(c.prefix.value))
    && Readable(c.ns)
    && Readable(c.local)
  }

  /** The qualified name the host reads out of a `CQualName`. */
  function ReadQualName(c: CQualName): QualName
    requires ReadableQualName(c)
  {
    var prefix := match ToOption(c.prefix)
      case None => None
      case Some(p) => Some(Elements(p));
    QualName(prefix, Elements(c.ns), Elements(c.local))
  }

  /** `CQualName::create` (types.rs:91-104): views of the name's parts, with a none prefix exactly
      when the name has no prefix; the host reads back the very name it was given. */
  function CreateCQualName(q: QualName): (r: CQualName)
    ensures r.prefix.tag == 0 <==> q.prefix.None?
    ensures q.prefix.Some? ==> r.prefix.tag == 1 && r.prefix.value.len == |q.prefix.value|
    ensures r.ns.len == |q.ns| && r.local.len == |q.local|
    ensures ReadableQualName(r) && ReadQualName(r) == q
  {
    var ns := ViewOf(q.ns);
    var local := ViewOf(q.local);
    var prefix := match q.prefix
      case None => NullableNone(DefaultSlice())
      case Some(p) => NullableSome(ViewOf(p));
    CQualName(prefix, ns, local)
  }

  /** `CQualName::default()` (types.rs:106-114): a none prefix and empty, null namespace and local name. */
  function DefaultCQualName(): (r: CQualName)
    ensures r.prefix.tag == 0
    ensures r.ns.ptr.Null? && r.local.ptr.Null?
    ensures ReadableQualName(r) && ReadQualName(r) == QualName(None, [], [])
  {
    CQualName(NullableNone(DefaultSlice()), DefaultSlice(), DefaultSlice())
  }

  predicate ReadableAttribute(a: CAttribute) {
    ReadableQualName(a.name) && Readable(a.value)
  }

  /** The attribute the host reads out of a `CAttribute`. */
  function ReadAttribute(a: CAttribute): Attribute
    requires ReadableAttribute(a)
  {
    Attribute(ReadQualName(a.name), Elements(a.value))
  }

  /** `CAttribute::default()` (types.rs:121-125): the default name and an empty, null value. */
  function DefaultCAttribute(): (r: CAttribute)
    ensures r.name == DefaultCQualName() && r.value.ptr.Null?
    ensures ReadableAttribute(r) && ReadAttribute(r) == Attribute(QualName(None, [], []), [])
  {
    CAttribute(DefaultCQualName(), DefaultSlice())
  }

  predicate ReadableNodeOrText(c: CNodeOrText) {
    c.tag == 0 || (c.tag == 1 && Readable(c.text))
  }

  /** How the host reads the append payload: tag 0 is the node, tag 1 the text. */
  function ReadNodeOrText(c: CNodeOrText): NodeOrText
    requires ReadableNodeOrText(c)
  {
    if c.tag == 0 then AppendNode(c.node) else AppendText(Elements(c.text))
  }

  /** The views of two distinct names differ: `CreateCQualName` loses nothing. */
  lemma CreateCQualNameInjective(p: QualName, q: QualName)
    requires CreateCQualName(p) == CreateCQualName(q)
    ensures p == q
  {
    assert ReadQualName(CreateCQualName(p)) == p;
  }

  /** Converts ASCII text to its bytes. */
  function Ascii(s: string): (r: seq<u8>)
    requires forall i :: 0 <= i < |s| ==> s[i] < 128 as char
    ensures |r| == |s|
  {
    seq(|s|, i requires 0 <= i < |s| => s[i] as int)
  }
}
