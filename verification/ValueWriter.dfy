/**
 * The single-pass encoder (ramqp-core/src/codec/encode.rs and value.rs): appends to one buffer, leaves a
 * placeholder for each compound's size and count, and fills it in when the content is there.
 */
module ValueWriter {
  import opened Wire
  import opened Values

  const PLACEHOLDER: seq<byte> := [0, 0, 0, 0]

  lemma {:induction false} EncAllSnoc(a: seq<Value>, v: Value)
    ensures EncAll(a + [v]) == EncAll(a) + Enc(v)
  {
    hide Enc;
    if a == [] {
      assert [v][1..] == [];
    } else {
      assert (a + [v])[1..] == a[1..] + [v];
      EncAllSnoc(a[1..], v);
    }
  }

  lemma {:induction false} BodyAllSnoc(a: seq<Value>, v: Value)
    ensures BodyAll(a + [v]) == BodyAll(a) + Body(v)
  {
    hide Body;
    if a == [] {
      assert [v][1..] == [];
    } else {
      assert (a + [v])[1..] == a[1..] + [v];
      BodyAllSnoc(a[1..], v);
    }
  }

  lemma {:induction false} InnerAllSnoc(a: seq<Value>, v: Value)
    ensures InnerAll(a + [v]) == InnerAll(a) + if v.Described? then InnerBody(v) else []
  {
    hide InnerBody;
    if a == [] {
      assert [v][1..] == [];
    } else {
      assert (a + [v])[1..] == a[1..] + [v];
      InnerAllSnoc(a[1..], v);
    }
  }

  lemma {:induction false} WideAllSnoc(a: seq<Value>, v: Value, tag: nat)
    ensures WideAll(a + [v], tag) == WideAll(a, tag) + if Scalar(v) && Tag(v) == tag then Wide(v).1 else []
  {
    hide Wide, Tag;
    if a == [] {
      assert [v][1..] == [];
    } else {
      assert (a + [v])[1..] == a[1..] + [v];
      WideAllSnoc(a[1..], v, tag);
    }
  }

  /** The four shapes of an encoding. */
  lemma EncForm(v: Value)
    ensures Scalar(v) ==> Enc(v) == [Compact(v).0] + Compact(v).1
    ensures v.List? || v.Map? ==> Enc(v) == [if v.List? then LIST32 else MAP32] + Sized(|v.items|, EncAll(v.items))
    ensures v.Array? ==> Enc(v) == [ARRAY32] + Sized(|v.items|, ArrayContent(v.items))
    ensures v.Described? ==> Enc(v) == [DESCRIBED] + (Enc(v.descriptor) + Enc(v.value))
  {
    hide Compact, Sized, EncAll, ArrayContent;
  }

  class Buffer {
    var data: seq<byte>

    constructor ()
      ensures data == []
    {
      data := [];
    }

    method PutU8(b: byte)
      modifies this
      ensures data == old(data) + [b]
    {
      data := data + [b];
    }

    method PutSlice(s: seq<byte>)
      modifies this
      ensures data == old(data) + s
    {
      data := data + s;
    }

    /** Reserve the size and count of a compound. */
    method OpenCompound(code: byte) returns (sizePos: nat, countPos: nat, start: nat)
      modifies this
      ensures data == old(data) + [code] + PLACEHOLDER + PLACEHOLDER
      ensures sizePos == |old(data)| + 1 && countPos == sizePos + 4 && start == countPos + 4 == |data|
    {
      PutU8(code);
      sizePos := |data|;
      PutSlice(PLACEHOLDER);
      countPos := |data|;
      PutSlice(PLACEHOLDER);
      start := |data|;
    }

    /** Overwrite four bytes in place. */
    method Patch(pos: nat, n: nat)
      requires pos + 4 <= |data|
      modifies this
      ensures data == old(data)[..pos] + BE(n, 4) + old(data)[pos + 4..]
    {
      data := data[..pos] + BE(n, 4) + data[pos + 4..];
    }

    /** Fill in a compound's header: the size and count are exact for whatever content was written. */
    method CloseCompound(ghost before: seq<byte>, ghost code: byte, ghost content: seq<byte>,
                         sizePos: nat, countPos: nat, start: nat, count: nat)
      requires data == before + [code] + PLACEHOLDER + PLACEHOLDER + content
      requires sizePos == |before| + 1 && countPos == sizePos + 4 && start == countPos + 4
      modifies this
      ensures data == before + [code] + Sized(count, content)
    {
      hide BE;
      var size := |data| - start + 4;
      Patch(sizePos, size);
      assert data == before + [code] + BE(size, 4) + PLACEHOLDER + content;
      Patch(countPos, count);
      assert data == before + [code] + BE(size, 4) + BE(count, 4) + content;
    }

    /** `Value::encode`. */
    method EncodeValue(v: Value)
      modifies this
      ensures data == old(data) + Enc(v)
      decreases v, 2
    {
      hide Enc, Sized, EncAll, ArrayContent;
      EncForm(v);
      if Scalar(v) {
        EncodeScalar(v);
      } else if v.Array? {
        EncodeArray(v);
      } else if v.Described? {
        PutU8(DESCRIBED);
        EncodeValue(v.descriptor);
        EncodeValue(v.value);
        assert data == old(data) + ([DESCRIBED] + (Enc(v.descriptor) + Enc(v.value)));
      } else {
        EncodeItems(v, if v.List? then LIST32 else MAP32);
      }
    }

    method EncodeScalar(v: Value)
      requires Scalar(v)
      modifies this
      ensures data == old(data) + ([Compact(v).0] + Compact(v).1)
    {
      PutU8(Compact(v).0);
      PutSlice(Compact(v).1);
    }

    method EncodeItems(v: Value, code: byte)
      requires v.List? || v.Map?
      modifies this
      ensures data == old(data) + ([code] + Sized(|v.items|, EncAll(v.items)))
      decreases v, 1
    {
      hide Enc, Sized, EncAll;
      var sizePos, countPos, start := OpenCompound(code);
      NothingYet(v.items);
      for i := 0 to |v.items|
        invariant data == old(data) + [code] + PLACEHOLDER + PLACEHOLDER + EncAll(v.items[..i])
      {
        EncAllSnoc(v.items[..i], v.items[i]);
        assert v.items[..i] + [v.items[i]] == v.items[..i + 1];
        EncodeValue(v.items[i]);
      }
      assert v.items[..|v.items|] == v.items;
      CloseCompound(old(data), code, EncAll(v.items), sizePos, countPos, start, |v.items|);
    }

    method EncodeArray(v: Value)
      requires v.Array?
      modifies this
      ensures data == old(data) + ([ARRAY32] + Sized(|v.items|, ArrayContent(v.items)))
      decreases v, 1
    {
      hide Sized, Wide, Code, Enc, BodyAll, InnerAll, WideAll, SharedPart;
      var sizePos, countPos, start := OpenCompound(ARRAY32);
      if v.items == [] {
        PutU8(NULL);
      } else if Scalar(v.items[0]) {
        EmitScalars(v.items);
      } else if Compound(v.items[0]) {
        EmitCompounds(v.items);
      } else {
        EmitDescribed(v.items);
      }
      CloseCompound(old(data), ARRAY32, ArrayContent(v.items), sizePos, countPos, start, |v.items|);
    }

    method EmitScalars(items: seq<Value>)
      requires items != [] && Scalar(items[0])
      modifies this
      ensures data == old(data) + ([Wide(items[0]).0] + WideAll(items, Tag(items[0])))
    {
      hide Wide, WideAll, Tag;
      var tag := Tag(items[0]);
      PutU8(Wide(items[0]).0);
      NothingWide(items, tag);
      for i := 0 to |items|
        invariant data == old(data) + [Wide(items[0]).0] + WideAll(items[..i], tag)
      {
        WideAllSnoc(items[..i], items[i], tag);
        assert items[..i] + [items[i]] == items[..i + 1];
        if Scalar(items[i]) && Tag(items[i]) == tag { PutSlice(Wide(items[i]).1); }
      }
      assert items[..|items|] == items;
    }

    /** Each element is encoded aside, and its leading constructor left out. */
    method EmitCompounds(items: seq<Value>)
      requires items != [] && Compound(items[0])
      modifies this
      ensures data == old(data) + ([Code(items[0])] + BodyAll(items))
      decreases items, 0
    {
      hide Code, Body, BodyAll;
      var scratch := new Buffer();
      scratch.EncodeValue(items[0]);
      assert scratch.data == [] + ([Code(items[0])] + Body(items[0]));
      PutU8(scratch.data[0]);
      PutSlice(scratch.data[1..]);
      OneBody(items);
      for i := 1 to |items|
        invariant data == old(data) + [Code(items[0])] + BodyAll(items[..i])
      {
        var next := new Buffer();
        next.EncodeValue(items[i]);
        BodyAllSnoc(items[..i], items[i]);
        assert items[..i] + [items[i]] == items[..i + 1];
        assert next.data == [] + ([Code(items[i])] + Body(items[i]));
        PutSlice(next.data[1..]);
      }
      assert items[..|items|] == items;
    }

    method EncodeShared(v: Value) returns (first: Buffer)
      requires v.Described?
      modifies this
      ensures data == old(data) + SharedPart(v) && fresh(first) && first.data == [Code(v.value)] + InnerBody(v)
      decreases v, 1
    {
      hide Code, Body;
      first := new Buffer();
      first.EncodeValue(v.value);
      assert first.data == [] + ([Code(v.value)] + Body(v.value));
      EncodeValue(v.descriptor);
      PutU8(first.data[0]);
    }

    method EncodeInner(v: Value)
      requires v.Described?
      modifies this
      ensures data == old(data) + InnerBody(v)
      decreases v, 1
    {
      hide Code, Body;
      var scratch := new Buffer();
      scratch.EncodeValue(v.value);
      assert scratch.data == [] + ([Code(v.value)] + Body(v.value));
      PutSlice(scratch.data[1..]);
    }

    /** One descriptor and one inner constructor for all, then the bare inner values. */
    method EmitDescribed(items: seq<Value>)
      requires items != [] && items[0].Described?
      modifies this
      ensures data == old(data) + ([DESCRIBED] + SharedPart(items[0]) + InnerAll(items))
      decreases items, 0
    {
      hide SharedPart, InnerBody, InnerAll;
      PutU8(DESCRIBED);
      var first := EncodeShared(items[0]);
      PutSlice(first.data[1..]);
      OneInner(items);
      for i := 1 to |items|
        invariant data == old(data) + [DESCRIBED] + SharedPart(items[0]) + InnerAll(items[..i])
      {
        InnerAllSnoc(items[..i], items[i]);
        assert items[..i] + [items[i]] == items[..i + 1];
        if items[i].Described? { EncodeInner(items[i]); }
      }
      assert items[..|items|] == items;
    }
  }

  lemma NothingYet(items: seq<Value>)
    ensures EncAll(items[..0]) == []
  {
  }

  lemma NothingWide(items: seq<Value>, tag: nat)
    ensures WideAll(items[..0], tag) == []
  {
  }

  lemma OneBody(items: seq<Value>)
    requires items != []
    ensures BodyAll(items[..1]) == Body(items[0])
  {
    hide Body;
    assert items[..1][1..] == [];
  }

  lemma OneInner(items: seq<Value>)
    requires items != [] && items[0].Described?
    ensures InnerAll(items[..1]) == InnerBody(items[0])
  {
    hide InnerBody;
    assert items[..1][1..] == [];
  }
}
