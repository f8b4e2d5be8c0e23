/** The pull protocol through which the host reads the attributes of a new element
    (`CAttributeIterator`, types.rs:127-130, and `html5ever_attribute_iterator_next` / `_count`,
    lib.rs:135-161). */
module AttributeIterator {
  import opened Options
  import opened Types

  /** The `CAttribute` handed out for one attribute: views of its name and of its value
      (lib.rs:148-154). The host reads back exactly that attribute. */
  function Export(a: Attribute): (r: CAttribute)
    ensures ReadableAttribute(r) && ReadAttribute(r) == a
    ensures r.value.len == |a.value|
  {
    CAttribute(CreateCQualName(a.name), ViewOf(a.value))
  }

  /** The "exhausted" answer of `next`: `CNullable::<CAttribute>::none()`. */
  function Exhausted(): (r: CNullable<CAttribute>)
    ensures WellTagged(r) && ToOption(r) == None
    ensures r.value == DefaultCAttribute()
  {
    NullableNone(DefaultCAttribute())
  }

  /** One call of `next` on the list `vec` at position `pos`: its answer and the new position.
      At the end the host reads "none" and the position stays; before it the host reads the
      attribute at the position, which moves on by one. */
  function Step(vec: seq<Attribute>, pos: nat): (r: (CNullable<CAttribute>, nat))
    requires pos <= |vec|
    ensures r.1 <= |vec|
    ensures WellTagged(r.0)
    ensures pos == |vec| ==> ToOption(r.0) == None && r.1 == pos
    ensures pos < |vec| ==>
      && ToOption(r.0).Some? && ReadableAttribute(r.0.value) && ReadAttribute(r.0.value) == vec[pos]
      && r.1 == pos + 1
  {
    if pos == |vec| then (Exhausted(), pos)
    else (NullableSome(Export(vec[pos])), pos + 1)
  }

  /** The host can read every answer of `next`: a well-tagged value whose attribute, when present,
      is readable. */
  predicate ReadableAnswer(x: CNullable<CAttribute>) {
    WellTagged(x) && (x.tag == 1 ==> ReadableAttribute(x.value))
  }

  /** The answers of `k` successive calls of `next` from position `pos`, and the final position;
      there is one answer per call and each can be read. */
  function Pull(vec: seq<Attribute>, pos: nat, k: nat): (r: (seq<CNullable<CAttribute>>, nat))
    requires pos <= |vec|
    ensures |r.0| == k && r.1 <= |vec|
    ensures forall i :: 0 <= i < k ==> ReadableAnswer(r.0[i])
    decreases k
  {
    if k == 0 then ([], pos)
    else
      var (x, next) := Step(vec, pos);
      var (rest, last) := Pull(vec, next, k - 1);
      ([x] + rest, last)
  }

  /** `k` calls from `pos` answer with the attributes from `pos` on, in list order, while any are
      left and with "exhausted" after that; the position stops at the end of the list. */
  lemma {:induction false} PullYieldsInOrder(vec: seq<Attribute>, pos: nat, k: nat)
    requires pos <= |vec|
    ensures |Pull(vec, pos, k).0| == k
    ensures Pull(vec, pos, k).1 == if pos + k <= |vec| then pos + k else |vec|
    ensures forall i :: 0 <= i < k ==>
      Pull(vec, pos, k).0[i] ==
        if pos + i < |vec| then NullableSome(Export(vec[pos + i])) else Exhausted()
    decreases k
  {
    if k > 0 {
      var (x, next) := Step(vec, pos);
      PullYieldsInOrder(vec, next, k - 1);
      var rest := Pull(vec, next, k - 1).0;
      assert Pull(vec, pos, k).0 == [x] + rest;
      forall i | 0 <= i < k
        ensures Pull(vec, pos, k).0[i] ==
          if pos + i < |vec| then NullableSome(Export(vec[pos + i])) else Exhausted()
      {
        if i > 0 {
          assert Pull(vec, pos, k).0[i] == rest[i - 1];
          if pos == |vec| {
            assert next + (i - 1) >= |vec|;
          }
        }
      }
    }
  }

  /** The exhaustion contract, as the host sees it: from position 0, exactly as many calls as
      `count()` reports succeed, reading back the attributes in list order, and every later call
      reports "none". */
  lemma ExactlyCountSucceed(vec: seq<Attribute>, k: nat)
    ensures forall i :: 0 <= i < k ==>
      && WellTagged(Pull(vec, 0, k).0[i])
      && (i < |vec| <==> ToOption(Pull(vec, 0, k).0[i]).Some?)
      && (i < |vec| ==> ReadAttribute(ToOption(Pull(vec, 0, k).0[i]).value) == vec[i])
  {
    PullYieldsInOrder(vec, 0, k);
    var answers := Pull(vec, 0, k).0;
    forall i | 0 <= i < k
      ensures WellTagged(answers[i])
      ensures i < |vec| <==> ToOption(answers[i]).Some?
      ensures i < |vec| ==> ReadAttribute(ToOption(answers[i]).value) == vec[i]
    {
      if i < |vec| {
        assert answers[i] == NullableSome(Export(vec[i]));
      } else {
        assert answers[i] == Exhausted();
      }
    }
  }

  /** The iterator object: the attribute list and the position of the next attribute. */
  class CAttributeIterator {
    const vec: seq<Attribute>
    var pos: nat

    /** The position never passes the end of the list. */
    ghost predicate Valid()
      reads this
    {
      pos <= |vec|
    }

    /** `CAttributeIterator { vec: attrs, pos: 0 }` (sink.rs:129, sink.rs:225). */
    constructor (attrs: seq<Attribute>)
      ensures vec == attrs && pos == 0
      ensures Valid()
    {
      vec := attrs;
      pos := 0;
    }

    /** `html5ever_attribute_iterator_next` (lib.rs:136-155): once the position equals the length,
        "none" with the position unchanged; otherwise the attribute at the position, which then
        moves on by one. */
    method Next() returns (r: CNullable<CAttribute>)
      requires Valid()
      modifies this`pos
      ensures Valid()
      ensures (r, pos) == Step(vec, old(pos))
      ensures old(pos) == |vec| ==> r.tag == 0 && pos == old(pos)
      ensures old(pos) < |vec| ==> r.tag == 1 && ReadAttribute(r.value) == vec[old(pos)] && pos == old(pos) + 1
    {
      if pos == |vec| {
        return Exhausted();
      }
      var attr := vec[pos];
      pos := pos + 1;
      return NullableSome(Export(attr));
    }

    /** `html5ever_attribute_iterator_count` (lib.rs:157-161): the length of the list, whatever the
        position; nothing changes. */
    method Count() returns (n: nat)
      ensures n == |vec|
    {
      return |vec|;
    }
  }
}
