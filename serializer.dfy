/**
 * The output writer: a tree of nodes walked left to right, where each node is
 * either a plain scalar (written little-endian), a sized reader (copied
 * verbatim and not descended into) or a composite whose children are visited
 * in declaration order.
 */
module Serializer {
  import opened Binary

  datatype Node =
    | Plain(scalar: Scalar)
    | Sized(content: seq<byte>)
    | Composite(children: seq<Node>)

  /** The bytes a complete walk of n writes: the in-order concatenation of its leaves. */
  function Flatten(n: Node): seq<byte>
    decreases n
  {
    match n
    case Plain(s) => EncodeLE(s)
    case Sized(c) => c
    case Composite(cs) => FlattenAll(cs)
  }

  function FlattenAll(cs: seq<Node>): seq<byte>
    decreases cs
  {
    if |cs| == 0 then [] else FlattenAll(cs[..|cs| - 1]) + Flatten(cs[|cs| - 1])
  }

  /** Walking a list of siblings writes each one's bytes in turn. */
  lemma {:induction false} FlattenAllAppend(a: seq<Node>, b: seq<Node>)
    ensures FlattenAll(a + b) == FlattenAll(a) + FlattenAll(b)
    decreases |b|
  {
    if |b| == 0 {
      assert a + b == a;
    } else {
      var ab := a + b;
      assert ab[..|ab| - 1] == a + b[..|b| - 1];
      assert ab[|ab| - 1] == b[|b| - 1];
      FlattenAllAppend(a, b[..|b| - 1]);
    }
  }

  lemma FlattenAllSingle(n: Node)
    ensures FlattenAll([n]) == Flatten(n)
  {
  }

  /**
   * The writer over the output file. A write fails once the file cannot take
   * more bytes (`capacity`): the bytes that still fit are written, the error is
   * recorded, and every later write does nothing.
   */
  class Writer {
    const capacity: nat
    var out: seq<byte>
    var failed: bool
    /** Everything the walk has asked to write so far. */
    ghost var Attempted: seq<byte>

    ghost predicate Valid()
      reads this
    {
      failed == (|Attempted| > capacity) &&
      out == if failed then Attempted[..capacity] else Attempted
    }

    constructor (capacity: nat)
      ensures Valid() && this.capacity == capacity
      ensures out == [] && !failed && Attempted == []
    {
      this.capacity := capacity;
      out, failed := [], false;
      Attempted := [];
    }

    /** One write of a little-endian field or of a sized reader's content. */
    method Emit(chunk: seq<byte>)
      requires Valid()
      modifies this
      ensures Valid() && Attempted == old(Attempted) + chunk
      ensures old(failed) ==> out == old(out)
      ensures !old(failed) && |old(out)| + |chunk| <= capacity ==> out == old(out) + chunk
    {
      if !failed {
        if |out| + |chunk| <= capacity {
          out := out + chunk;
        } else {
          out := (out + chunk)[..capacity];
          failed := true;
        }
      } else {
        assert (Attempted + chunk)[..capacity] == Attempted[..capacity];
      }
      Attempted := Attempted + chunk;
    }

    /** Visits n: scalars are encoded, sized readers copied, composites walked child by child. */
    method Walk(n: Node)
      requires Valid()
      modifies this
      decreases n
      ensures Valid() && Attempted == old(Attempted) + Flatten(n)
    {
      match n
      case Plain(s) =>
        Emit(EncodeLE(s));
      case Sized(c) =>
        Emit(c);
      case Composite(cs) =>
        var i := 0;
        while i < |cs|
          invariant 0 <= i <= |cs|
          invariant Valid() && Attempted == old(Attempted) + FlattenAll(cs[..i])
        {
          assert cs[..i + 1][..i] == cs[..i];
          Walk(cs[i]);
          i := i + 1;
        }
        assert cs[..|cs|] == cs;
    }
  }

  /**
   * Writes the whole tree to a fresh output file that can take `capacity`
   * bytes. Succeeds exactly when the serialized tree fits; the file then holds
   * the flattened tree, and otherwise the part of it that fitted.
   */
  method Write(n: Node, capacity: nat) returns (out: seq<byte>, ok: bool)
    ensures ok <==> |Flatten(n)| <= capacity
    ensures ok ==> out == Flatten(n)
    ensures !ok ==> out == Flatten(n)[..capacity]
  {
    var w := new Writer(capacity);
    w.Walk(n);
    out, ok := w.out, !w.failed;
  }
}
