/** The writer and the walk as the server runs them (internal/esphome/proto.go). */
module ProtobufClass {
  import Model = ProtobufModel
  import opened ProtobufModel
  import opened Wrappers

  class Writer {
    var b: seq<Byte>

    constructor ()
      ensures b == []
    {
      b := [];
    }

    method Uvarint(v: nat)
      modifies `b
      ensures b == old(b) + Varint(v)
    {
      var left := v;
      while left >= 0x80
        invariant b + Varint(left) == old(b) + Varint(v)
      {
        assert b + Varint(left) == (b + [left % 0x80 + 0x80]) + Varint(left / 0x80);
        b := b + [left % 0x80 + 0x80];
        left := left / 0x80;
      }
      b := b + [left];
    }

    method Tag(field: int, wire: nat)
      requires wire < 8
      modifies `b
      ensures b == old(b) + Varint(Model.Tag(field, wire))
    {
      Uvarint(Model.Tag(field, wire));
    }

    method U32(field: int, v: nat)
      modifies `b
      ensures b == old(b) + Appended(Call.U32(field, v))
    {
      Tag(field, WIRE_VARINT);
      Uvarint(v);
    }

    method Boolean(field: int, on: bool)
      modifies `b
      ensures b == old(b) + Appended(Call.Boolean(field, on))
    {
      Tag(field, WIRE_VARINT);
      if on {
        Uvarint(1);
      } else {
        Uvarint(0);
      }
    }

    method Bytes(field: int, data: seq<Byte>)
      modifies `b
      ensures b == old(b) + Varint(Model.Tag(field, WIRE_BYTES)) + (Varint(|data|) + data)
    {
      Tag(field, WIRE_BYTES);
      Uvarint(|data|);
      b := b + data;
    }

    method Str(field: int, s: seq<Byte>)
      modifies `b
      ensures b == old(b) + Appended(Call.Str(field, s))
    {
      Bytes(field, s);
    }

    method Sub(field: int, msg: seq<Byte>)
      modifies `b
      ensures b == old(b) + Appended(Call.Sub(field, msg))
    {
      Bytes(field, msg);
    }

    method Fixed32(field: int, v: nat)
      modifies `b
      ensures b == old(b) + Appended(Call.Fixed32(field, v))
    {
      Tag(field, WIRE_FIXED32);
      b := b + LittleEndian(v, 4);
    }
  }

  /** Visits a message's fields until it ends or is no message. */
  method Walk(msg: seq<Byte>) returns (visited: seq<Entry>, error: Option<Error>)
    ensures (visited, error) == Model.Walk(msg)
  {
    var left := msg;
    visited := [];
    assert visited + Model.Walk(left).0 == Model.Walk(left).0;
    while left != []
      invariant visited + Model.Walk(left).0 == Model.Walk(msg).0
      invariant Model.Walk(left).1 == Model.Walk(msg).1
      decreases |left|
    {
      match Next(left)
      case Stop(e) =>
        assert visited + [] == visited;
        return visited, Some(e);
      case Visit(entry, rest) =>
        assert visited + ([entry] + Model.Walk(rest).0) == visited + [entry] + Model.Walk(rest).0;
        visited := visited + [entry];
        left := rest;
    }
    assert visited + [] == visited;
    error := None;
  }
}
