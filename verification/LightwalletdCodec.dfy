/** The codec as the client runs it: loops that shift a value out byte by byte, and parsers that move an index over the data. */
module LightwalletdCodec {
  import opened Common
  import opened WireFormat

  method EncodeVarintLoop(v: U64) returns (encoded: seq<Byte>)
    ensures encoded == EncodeVarint(v)
  {
    var value := v;
    encoded := [];
    while value >= 128
      invariant encoded + EncodeVarint(value) == EncodeVarint(v)
      decreases value
    {
      assert encoded + EncodeVarint(value) == encoded + [value % 128 + 128] + EncodeVarint(value / 128);
      encoded := encoded + [value % 128 + 128];
      value := value / 128;
    }
    encoded := encoded + [value];
  }

  /** Reads one varint, or fails; a failure leaves the index where the reading stopped. */
  method ReadVarintAt(data: seq<Byte>, index: nat) returns (r: Option<nat>, next: nat)
    ensures r == match ReadVarint(data, index, 0) case Some(v) => Some(v.0) case None => None
    ensures r.Some? ==> next == ReadVarint(data, index, 0).value.1
  {
    var value, k := 0, 0;
    next := index;
    while next < |data| && k < 10
      invariant k <= 10
      invariant ReadVarint(data, next, k).Some? <==> ReadVarint(data, index, 0).Some?
      invariant ReadVarint(data, next, k).Some? ==>
        ReadVarint(data, index, 0).value == (value + ReadVarint(data, next, k).value.0, ReadVarint(data, next, k).value.1)
      decreases 10 - k
    {
      var byte := data[next];
      next := next + 1;
      value := value + Shifted(byte, k);
      if byte < 128 { return Some(value), next; }
      k := k + 1;
    }
    r := None;
  }

  /** A length and that many bytes: where they start and end. */
  method ReadDelimitedAt(data: seq<Byte>, index: nat) returns (span: Option<(nat, nat)>)
    requires index <= |data|
    ensures span == Delimited(data, index)
  {
    var length, start := ReadVarintAt(data, index);
    if length.None? || length.value > INT_MAX || |data| - start < length.value { return None; }
    span := Some((start, start + length.value));
  }

  method SkipFieldAt(data: seq<Byte>, wireType: nat, index: nat) returns (next: Option<nat>)
    requires index <= |data|
    ensures next == SkipField(data, wireType, index)
  {
    if wireType == 0 {
      var v, end := ReadVarintAt(data, index);
      next := if v.Some? then Some(end) else None;
    } else if wireType == 1 {
      next := if |data| - index >= 8 then Some(index + 8) else None;
    } else if wireType == 2 {
      var span := ReadDelimitedAt(data, index);
      next := if span.Some? then Some(span.value.1) else None;
    } else if wireType == 5 {
      next := if |data| - index >= 4 then Some(index + 4) else None;
    } else {
      next := None;
    }
  }

  method FrameOf(payload: seq<Byte>) returns (frame: seq<Byte>)
    requires |payload| < 0x1_0000_0000
    ensures frame == GrpcFrame(payload)
  {
    frame := [0];
    frame := frame + BigEndian(|payload|, 4);
    frame := frame + payload;
  }

  method PayloadOf(data: seq<Byte>) returns (payload: Option<seq<Byte>>)
    ensures payload == GrpcPayload(data)
  {
    if |data| < 5 || data[0] != 0 { return None; }
    var length, k := 0, 1;
    assert data[1..1] == [];
    while k < 5
      invariant 1 <= k <= 5
      invariant length == FromBigEndian(data[1..k])
    {
      assert data[1..k + 1][..k - 1] == data[1..k];
      length := length * 256 + data[k];
      k := k + 1;
    }
    payload := if 5 + length <= |data| then Some(data[5..5 + length]) else None;
  }

  method ParseSend(decode: Decoder, data: seq<Byte>) returns (r: Option<SendResponse>)
    ensures r == ParseSendResponse(decode, data)
  {
    var framed := PayloadOf(data);
    if framed.None? { return None; }
    r := ParseSendFields(decode, framed.value);
  }

  method ParseSendFields(decode: Decoder, payload: seq<Byte>) returns (r: Option<SendResponse>)
    ensures r == SendFields(decode, payload, 0, SendResponse(0, ""))
  {
    var index := 0;
    var seen := SendResponse(0, "");
    while index < |payload|
      invariant index <= |payload|
      invariant SendFields(decode, payload, index, seen) == SendFields(decode, payload, 0, SendResponse(0, ""))
      decreases |payload| - index
    {
      var field := ReadSendField(decode, payload, index, seen);
      if field.None? { return None; }
      index, seen := field.value.0, field.value.1;
    }
    r := Some(seen);
  }

  /** One field of the response, over what was read so far. */
  method ReadSendField(decode: Decoder, payload: seq<Byte>, index: nat, seen: SendResponse) returns (r: Option<(nat, SendResponse)>)
    requires index < |payload|
    ensures r.None? ==> SendFields(decode, payload, index, seen).None?
    ensures r.Some? ==>
      && index < r.value.0 <= |payload|
      && SendFields(decode, payload, r.value.0, r.value.1) == SendFields(decode, payload, index, seen)
  {
    var key, body := ReadVarintAt(payload, index);
    if key.None? { return None; }
    if key.value / 8 == 1 && key.value % 8 == 0 {
      var v, next := ReadVarintAt(payload, body);
      if v.None? { return None; }
      r := Some((next, seen.(code := ToInt32(v.value))));
    } else if key.value / 8 == 2 && key.value % 8 == 2 {
      var span := ReadDelimitedAt(payload, body);
      if span.None? { return None; }
      var decoded := decode(payload[span.value.0..span.value.1]);
      if decoded.None? { return None; }
      r := Some((span.value.1, seen.(message := decoded.value)));
    } else {
      var next := SkipFieldAt(payload, key.value % 8, body);
      if next.None? { return None; }
      r := Some((next.value, seen));
    }
  }

  method ParseTransactionHeight(data: seq<Byte>) returns (r: Option<Observation>)
    ensures r == ParseTransaction(data)
  {
    var framed := PayloadOf(data);
    if framed.None? { return None; }
    var payload := framed.value;
    var index, height := 0, 0;
    while index < |payload|
      invariant index <= |payload|
      invariant HeightFields(payload, index, height) == HeightFields(payload, 0, 0)
      decreases |payload| - index
    {
      var key, body := ReadVarintAt(payload, index);
      if key.None? { return None; }
      if key.value / 8 == 2 && key.value % 8 == 0 {
        var v, next := ReadVarintAt(payload, body);
        if v.None? { return None; }
        height, index := v.value, next;
      } else {
        var next := SkipFieldAt(payload, key.value % 8, body);
        if next.None? { return None; }
        index := next.value;
      }
    }
    r := Some(ObservationOf(height));
  }

  method ParseBlockHeight(data: seq<Byte>) returns (r: Result<nat, BlockError>)
    ensures r == ParseLatestBlock(data)
  {
    var framed := PayloadOf(data);
    if framed.None? || framed.value == [] { return Err(MalformedResponse); }
    var payload := framed.value;
    var index := 0;
    while index < |payload|
      invariant index <= |payload|
      invariant BlockFields(payload, index) == BlockFields(payload, 0)
      decreases |payload| - index
    {
      var key, body := ReadVarintAt(payload, index);
      if key.None? { return Err(MalformedResponse); }
      if key.value / 8 == 1 && key.value % 8 == 0 {
        var v, next := ReadVarintAt(payload, body);
        return if v.None? then Err(MalformedResponse) else Ok(v.value);
      }
      var next := SkipFieldAt(payload, key.value % 8, body);
      if next.None? { return Err(MalformedResponse); }
      index := next.value;
    }
    r := Err(MissingHeight);
  }
}
