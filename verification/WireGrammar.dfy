/**
 Which bytes the response parsers accept, and what they read from them: data that can be cut into whole
 fields, of which the last of a kind counts. Everything else, malformed or cut off, is refused.
 */
module WireGrammar {
  import opened Common
  import opened WireFormat

  // ----- one field --------------------------------------------------------------------------------------

  /** A varint from `i` to `j`: at most ten bytes, all but the last with the continuation bit. */
  ghost predicate VarintEnds(data: seq<Byte>, i: nat, j: nat) {
    && i < j <= |data| && j <= i + 10 && data[j - 1] < 128 && forall k :: i <= k < j - 1 ==> data[k] >= 128
  }

  lemma {:induction false} VarintReads(data: seq<Byte>, i: nat, k: nat, j: nat)
    requires i < j <= |data| && k + (j - i) <= 10 && data[j - 1] < 128 && forall n :: i <= n < j - 1 ==> data[n] >= 128
    ensures ReadVarint(data, i, k).Some? && ReadVarint(data, i, k).value.1 == j
    decreases j - i
  {
    if i + 1 < j {
      VarintReads(data, i + 1, k + 1, j);
    }
  }

  lemma {:induction false} ReadIsVarint(data: seq<Byte>, i: nat, k: nat)
    requires ReadVarint(data, i, k).Some?
    ensures var j := ReadVarint(data, i, k).value.1;
      i < j <= |data| && k + (j - i) <= 10 && data[j - 1] < 128 && forall n :: i <= n < j - 1 ==> data[n] >= 128
    decreases |data| - i
  {
    if data[i] >= 128 {
      ReadIsVarint(data, i + 1, k + 1);
    }
  }

  /** A varint is read exactly where one stands, and ends where it ends. */
  lemma VarintIs(data: seq<Byte>, i: nat, j: nat)
    ensures VarintEnds(data, i, j) <==> ReadVarint(data, i, 0).Some? && ReadVarint(data, i, 0).value.1 == j
  {
    if VarintEnds(data, i, j) {
      VarintReads(data, i, 0, j);
    }
    if ReadVarint(data, i, 0).Some? {
      ReadIsVarint(data, i, 0);
    }
  }

  /** The number that a varint at `i` stands for. */
  ghost function NumberAt(data: seq<Byte>, i: nat): nat {
    match ReadVarint(data, i, 0) case Some(v) => v.0 case None => 0
  }

  /** The body of a field of this wire type, from `i` to `j`. Groups and unknown wire types have none. */
  ghost predicate BodyEnds(data: seq<Byte>, wireType: nat, i: nat, j: nat) {
    match wireType
    case 0 => VarintEnds(data, i, j)
    case 1 => j == i + 8 <= |data|
    case 2 => exists s: nat :: BlobAt(data, i, s, j)
    case 5 => j == i + 4 <= |data|
    case _ => false
  }

  /** A length at `i`, and as many bytes from `s` to `j`. */
  ghost predicate BlobAt(data: seq<Byte>, i: nat, s: nat, j: nat) {
    VarintEnds(data, i, s) && NumberAt(data, i) <= INT_MAX && j == s + NumberAt(data, i) <= |data|
  }

  lemma BlobIs(data: seq<Byte>, i: nat, s: nat, j: nat)
    requires i <= |data|
    ensures Delimited(data, i) == Some((s, j)) <==> BlobAt(data, i, s, j)
  {
    VarintIs(data, i, s);
  }

  lemma BodyIs(data: seq<Byte>, wireType: nat, i: nat, j: nat)
    requires i <= |data|
    ensures SkipField(data, wireType, i) == Some(j) <==> BodyEnds(data, wireType, i, j)
  {
    match wireType
    case 0 => VarintIs(data, i, j);
    case 2 =>
      if Delimited(data, i).Some? {
        BlobIs(data, i, Delimited(data, i).value.0, Delimited(data, i).value.1);
      }
      if BodyEnds(data, wireType, i, j) {
        var s: nat :| BlobAt(data, i, s, j);
        BlobIs(data, i, s, j);
      }
    case _ =>
  }

  /** A field from `i` to `j`: its key, and a body of the key's wire type. */
  ghost predicate FieldEnds(data: seq<Byte>, i: nat, j: nat) { exists b: nat :: FieldAt(data, i, b, j) }

  ghost predicate HasField(data: seq<Byte>, i: nat) { exists j: nat :: FieldEnds(data, i, j) }

  ghost predicate FieldAt(data: seq<Byte>, i: nat, b: nat, j: nat) {
    VarintEnds(data, i, b) && BodyEnds(data, NumberAt(data, i) % 8, b, j)
  }

  ghost predicate IsField(data: seq<Byte>, i: nat, number: nat, wireType: nat) {
    NumberAt(data, i) / 8 == number && NumberAt(data, i) % 8 == wireType
  }

  /** Where the body of the field at `i` starts. */
  ghost function BodyOf(data: seq<Byte>, i: nat): nat {
    match ReadVarint(data, i, 0) case Some(v) => v.1 case None => 0
  }

  lemma FieldIs(data: seq<Byte>, i: nat, j: nat)
    ensures FieldEnds(data, i, j) <==>
      ReadVarint(data, i, 0).Some? && SkipField(data, ReadVarint(data, i, 0).value.0 % 8, ReadVarint(data, i, 0).value.1) == Some(j)
    ensures FieldEnds(data, i, j) ==> i < j <= |data|
  {
    if FieldEnds(data, i, j) {
      var b: nat :| FieldAt(data, i, b, j);
      VarintIs(data, i, b);
      BodyIs(data, NumberAt(data, i) % 8, b, j);
    }
    if ReadVarint(data, i, 0).Some? {
      var key := ReadVarint(data, i, 0).value;
      VarintIs(data, i, key.1);
      BodyIs(data, key.0 % 8, key.1, j);
      if SkipField(data, key.0 % 8, key.1) == Some(j) {
        assert FieldAt(data, i, key.1, j);
      }
    }
  }

  // ----- whole fields -------------------------------------------------------------------------------------

  /** The data from `at[0]` on is cut into whole fields, one from each position to the next, up to the end. */
  ghost predicate Cut(data: seq<Byte>, at: seq<nat>) {
    at != [] && at[|at| - 1] == |data| && forall k :: 0 <= k < |at| - 1 ==> FieldEnds(data, at[k], at[k + 1])
  }

  ghost predicate NoField(data: seq<Byte>, at: seq<nat>, number: nat, wireType: nat) {
    forall k :: 0 <= k < |at| - 1 ==> !IsField(data, at[k], number, wireType)
  }

  /** The last field of this number and wire type is the one at position `k` of the cut. */
  ghost predicate LastField(data: seq<Byte>, at: seq<nat>, number: nat, wireType: nat, k: nat) {
    k + 1 < |at| && IsField(data, at[k], number, wireType) && NoField(data, at[k + 1..], number, wireType)
  }

  lemma CutOn(data: seq<Byte>, at: seq<nat>)
    requires Cut(data, at) && |at| > 1
    ensures FieldEnds(data, at[0], at[1]) && at[0] < at[1] <= |data| && Cut(data, at[1..])
  {
    FieldIs(data, at[0], at[1]);
    var rest := at[1..];
    forall k | 0 <= k < |rest| - 1 ensures FieldEnds(data, rest[k], rest[k + 1]) {
      assert FieldEnds(data, at[k + 1], at[k + 2]);
    }
  }

  lemma CutFrom(data: seq<Byte>, i: nat, at: seq<nat>)
    requires Cut(data, at) && FieldEnds(data, i, at[0])
    ensures Cut(data, [i] + at)
  {
    var all := [i] + at;
    forall k | 0 <= k < |all| - 1 ensures FieldEnds(data, all[k], all[k + 1]) {
      if k > 0 {
        assert FieldEnds(data, at[k - 1], at[k]);
      }
    }
  }

  /** The first field of a cut, and the fields after it. */
  lemma LastFieldOn(data: seq<Byte>, at: seq<nat>, number: nat, wireType: nat, k: nat)
    requires |at| > 1
    ensures NoField(data, at, number, wireType) <==> !IsField(data, at[0], number, wireType) && NoField(data, at[1..], number, wireType)
    ensures LastField(data, at, number, wireType, k) ==>
      if k == 0 then IsField(data, at[0], number, wireType) && NoField(data, at[1..], number, wireType)
      else LastField(data, at[1..], number, wireType, k - 1) && at[1..][k - 1] == at[k]
  {
    assert forall n :: 0 <= n < |at| - 1 ==> at[1..][n] == at[n + 1];
    if NoField(data, at[1..], number, wireType) {
      forall n | 0 < n < |at| - 1 ensures !IsField(data, at[n], number, wireType) {
        assert at[1..][n - 1] == at[n];
      }
    }
    if k > 0 && k + 1 < |at| {
      assert at[1..][k - 1 + 1..] == at[k + 1..];
    }
  }

  // ----- a transaction's height -----------------------------------------------------------------------------

  /** One value per field kind: the last one that occurs, or else what was known before. */
  ghost predicate LastWins(data: seq<Byte>, at: seq<nat>, number: nat, wireType: nat, seen: nat, r: nat) {
    && (NoField(data, at, number, wireType) ==> r == seen)
    && forall k: nat :: LastField(data, at, number, wireType, k) ==> r == NumberAt(data, BodyOf(data, at[k]))
  }

  lemma LastWinsOn(data: seq<Byte>, at: seq<nat>, number: nat, wireType: nat, seen: nat, next: nat, r: nat)
    requires |at| > 1 && LastWins(data, at[1..], number, wireType, next, r)
    requires next == if IsField(data, at[0], number, wireType) then NumberAt(data, BodyOf(data, at[0])) else seen
    ensures LastWins(data, at, number, wireType, seen, r)
  {
    LastFieldOn(data, at, number, wireType, 0);
    forall k: nat | LastField(data, at, number, wireType, k) ensures r == NumberAt(data, BodyOf(data, at[k])) {
      LastFieldOn(data, at, number, wireType, k);
    }
  }

  lemma {:induction false} HeightOfCut(data: seq<Byte>, at: seq<nat>, seen: nat)
    requires Cut(data, at) && at[0] <= |data|
    ensures HeightFields(data, at[0], seen).Some? && LastWins(data, at, 2, 0, seen, HeightFields(data, at[0], seen).value)
    decreases |at|
  {
    if |at| == 1 {
    } else {
      CutOn(data, at);
      FieldIs(data, at[0], at[1]);
      var next := if IsField(data, at[0], 2, 0) then NumberAt(data, BodyOf(data, at[0])) else seen;
      HeightStep(data, at[0], at[1], seen, next);
      HeightOfCut(data, at[1..], next);
      LastWinsOn(data, at, 2, 0, seen, next, HeightFields(data, at[0], seen).value);
    }
  }

  /** The parser reads one field and goes on at its end. */
  lemma HeightStep(data: seq<Byte>, i: nat, j: nat, seen: nat, next: nat)
    requires FieldEnds(data, i, j) && i < j <= |data|
    requires next == if IsField(data, i, 2, 0) then NumberAt(data, BodyOf(data, i)) else seen
    ensures HeightFields(data, i, seen) == HeightFields(data, j, next)
  {
    FieldIs(data, i, j);
  }

  lemma {:induction false} HeightIsCut(data: seq<Byte>, i: nat, seen: nat) returns (at: seq<nat>)
    requires i <= |data| && HeightFields(data, i, seen).Some?
    ensures Cut(data, at) && at[0] == i
    decreases |data| - i
  {
    if i == |data| {
      at := [i];
    } else {
      var key := ReadVarint(data, i, 0).value;
      var j := SkipField(data, key.0 % 8, key.1).value;
      FieldIs(data, i, j);
      HeightStep(data, i, j, seen, if IsField(data, i, 2, 0) then NumberAt(data, BodyOf(data, i)) else seen);
      at := HeightIsCut(data, j, if IsField(data, i, 2, 0) then NumberAt(data, BodyOf(data, i)) else seen);
      CutFrom(data, i, at);
      at := [i] + at;
    }
  }

  /**
   The height of a transaction, from any payload: accepted exactly when the payload can be cut into whole
   fields, and then it is the number of the last field 2 that is a varint, or zero.
   */
  lemma TransactionIs(data: seq<Byte>)
    ensures ParseTransaction(data).Some? <==> GrpcPayload(data).Some? && exists at :: CutWhole(GrpcPayload(data).value, at)
    ensures ParseTransaction(data).Some? ==> exists at, height ::
      CutWhole(GrpcPayload(data).value, at) && LastWins(GrpcPayload(data).value, at, 2, 0, 0, height)
      && ParseTransaction(data) == Some(ObservationOf(height))
  {
    if GrpcPayload(data).Some? {
      var payload := GrpcPayload(data).value;
      if HeightFields(payload, 0, 0).Some? {
        var at := HeightIsCut(payload, 0, 0);
        HeightOfCut(payload, at, 0);
        assert CutWhole(payload, at) && LastWins(payload, at, 2, 0, 0, HeightFields(payload, 0, 0).value);
      }
      if exists at :: CutWhole(payload, at) {
        var at :| CutWhole(payload, at);
        HeightOfCut(payload, at, 0);
      }
    }
  }

  ghost predicate CutWhole(data: seq<Byte>, at: seq<nat>) { Cut(data, at) && at[0] == 0 }

  /** What a height means: none yet, one that the chain keeps for forks, or a block. */
  lemma ObservationIs(height: U64)
    ensures ObservationOf(height).Mempool? <==> height == 0
    ensures ObservationOf(height).Forked? <==> height == 0xFFFF_FFFF_FFFF_FFFF
    ensures height != 0 && height != 0xFFFF_FFFF_FFFF_FFFF ==> ObservationOf(height) == Mined(height)
  {
  }

  // ----- a send response --------------------------------------------------------------------------------------

  /** The text of the field at `i`, of wire type 2. */
  ghost function TextAt(data: seq<Byte>, i: nat): seq<Byte> {
    if BodyOf(data, i) > |data| then [] else
    match Delimited(data, BodyOf(data, i)) case Some(d) => data[d.0..d.1] case None => []
  }

  ghost predicate Readable(decode: Decoder, data: seq<Byte>, i: nat) { IsField(data, i, 2, 2) ==> decode(TextAt(data, i)).Some? }

  ghost predicate AllReadable(decode: Decoder, data: seq<Byte>, at: seq<nat>) {
    forall k :: 0 <= k < |at| - 1 ==> Readable(decode, data, at[k])
  }

  /** The last code and the last message, or else what was known before. */
  ghost predicate Says(decode: Decoder, data: seq<Byte>, at: seq<nat>, seen: SendResponse, r: SendResponse) {
    && (NoField(data, at, 1, 0) ==> r.code == seen.code)
    && (forall k: nat :: LastField(data, at, 1, 0, k) ==> r.code == ToInt32(NumberAt(data, BodyOf(data, at[k]))))
    && (NoField(data, at, 2, 2) ==> r.message == seen.message)
    && (forall k: nat :: LastField(data, at, 2, 2, k) ==> Some(r.message) == decode(TextAt(data, at[k])))
  }

  ghost predicate ReadsField(decode: Decoder, data: seq<Byte>, i: nat, seen: SendResponse, next: SendResponse) {
    && next.code == (if IsField(data, i, 1, 0) then ToInt32(NumberAt(data, BodyOf(data, i))) else seen.code)
    && (if IsField(data, i, 2, 2) then decode(TextAt(data, i)) == Some(next.message) else next.message == seen.message)
  }

  /** The parser reads one field and goes on at its end, unless its text is not one. */
  lemma SendStep(decode: Decoder, data: seq<Byte>, i: nat, j: nat, seen: SendResponse) returns (next: SendResponse)
    requires FieldEnds(data, i, j) && i < j <= |data|
    ensures Readable(decode, data, i) ==> ReadsField(decode, data, i, seen, next) && SendFields(decode, data, i, seen) == SendFields(decode, data, j, next)
    ensures !Readable(decode, data, i) ==> SendFields(decode, data, i, seen).None?
  {
    FieldIs(data, i, j);
    next := seen;
    if IsField(data, i, 1, 0) {
      next := seen.(code := ToInt32(NumberAt(data, BodyOf(data, i))));
    } else if IsField(data, i, 2, 2) && Readable(decode, data, i) {
      next := seen.(message := decode(TextAt(data, i)).value);
    }
  }

  lemma SaysOn(decode: Decoder, data: seq<Byte>, at: seq<nat>, seen: SendResponse, next: SendResponse, r: SendResponse)
    requires |at| > 1 && Says(decode, data, at[1..], next, r) && ReadsField(decode, data, at[0], seen, next)
    ensures Says(decode, data, at, seen, r)
  {
    LastFieldOn(data, at, 1, 0, 0);
    LastFieldOn(data, at, 2, 2, 0);
    forall k: nat | LastField(data, at, 1, 0, k) ensures r.code == ToInt32(NumberAt(data, BodyOf(data, at[k]))) {
      LastFieldOn(data, at, 1, 0, k);
    }
    forall k: nat | LastField(data, at, 2, 2, k) ensures Some(r.message) == decode(TextAt(data, at[k])) {
      LastFieldOn(data, at, 2, 2, k);
    }
  }

  lemma {:induction false} SendOfCut(decode: Decoder, data: seq<Byte>, at: seq<nat>, seen: SendResponse)
    requires Cut(data, at) && at[0] <= |data| && AllReadable(decode, data, at)
    ensures SendFields(decode, data, at[0], seen).Some? && Says(decode, data, at, seen, SendFields(decode, data, at[0], seen).value)
    decreases |at|
  {
    if |at| > 1 {
      CutOn(data, at);
      var next := SendStep(decode, data, at[0], at[1], seen);
      assert Readable(decode, data, at[0]);
      var rest := at[1..];
      forall k | 0 <= k < |rest| - 1 ensures Readable(decode, data, rest[k]) {
        assert Readable(decode, data, at[k + 1]);
      }
      SendOfCut(decode, data, rest, next);
      SaysOn(decode, data, at, seen, next, SendFields(decode, data, at[0], seen).value);
    }
  }

  lemma {:induction false} SendIsCut(decode: Decoder, data: seq<Byte>, i: nat, seen: SendResponse) returns (at: seq<nat>)
    requires i <= |data| && SendFields(decode, data, i, seen).Some?
    ensures Cut(data, at) && at[0] == i && AllReadable(decode, data, at)
    decreases |data| - i
  {
    if i == |data| {
      at := [i];
    } else {
      var j := SendReadsField(decode, data, i, seen);
      var next := SendStep(decode, data, i, j, seen);
      at := SendIsCut(decode, data, j, next);
      CutFrom(data, i, at);
      var all := [i] + at;
      forall k | 0 <= k < |all| - 1 ensures Readable(decode, data, all[k]) {
        if k > 0 {
          assert Readable(decode, data, at[k - 1]);
        }
      }
      at := all;
    }
  }

  lemma SendReadsField(decode: Decoder, data: seq<Byte>, i: nat, seen: SendResponse) returns (j: nat)
    requires i < |data| && SendFields(decode, data, i, seen).Some?
    ensures FieldEnds(data, i, j) && i < j <= |data|
  {
    var key := ReadVarint(data, i, 0).value;
    j := SkipField(data, key.0 % 8, key.1).value;
    FieldIs(data, i, j);
  }

  ghost predicate CutReadably(decode: Decoder, data: seq<Byte>, at: seq<nat>) { CutWhole(data, at) && AllReadable(decode, data, at) }

  /**
   A send response, from any data: accepted exactly when its payload can be cut into whole fields whose
   messages are all text; then it says the last code and the last message, or 0 and "" without one.
   */
  lemma SendResponseIs(decode: Decoder, data: seq<Byte>)
    ensures ParseSendResponse(decode, data).Some?
       <==> GrpcPayload(data).Some? && exists at :: CutReadably(decode, GrpcPayload(data).value, at)
    ensures ParseSendResponse(decode, data).Some? ==> exists at ::
      CutReadably(decode, GrpcPayload(data).value, at)
      && Says(decode, GrpcPayload(data).value, at, SendResponse(0, ""), ParseSendResponse(decode, data).value)
  {
    if GrpcPayload(data).Some? {
      var payload, seen := GrpcPayload(data).value, SendResponse(0, "");
      if SendFields(decode, payload, 0, seen).Some? {
        var at := SendIsCut(decode, payload, 0, seen);
        SendOfCut(decode, payload, at, seen);
        assert CutReadably(decode, payload, at) && Says(decode, payload, at, seen, SendFields(decode, payload, 0, seen).value);
      }
      if exists at :: CutReadably(decode, payload, at) {
        var at :| CutReadably(decode, payload, at);
        SendOfCut(decode, payload, at, seen);
      }
    }
  }

  // ----- the latest block ---------------------------------------------------------------------------------------

  /** Whole fields lead from `at[0]` to the last position, none of them a field 1 that is a varint. */
  ghost predicate LeadsOn(data: seq<Byte>, at: seq<nat>) {
    at != [] && (forall k :: 0 <= k < |at| - 1 ==> FieldEnds(data, at[k], at[k + 1])) && NoField(data, at, 1, 0)
  }

  /** The last position of the list holds the first field 1, and its varint is the height. */
  ghost predicate HeightFound(data: seq<Byte>, i: nat, at: seq<nat>, height: nat) {
    && LeadsOn(data, at) && at[0] == i && at[|at| - 1] < |data|
    && IsField(data, at[|at| - 1], 1, 0) && HasField(data, at[|at| - 1])
    && height == NumberAt(data, BodyOf(data, at[|at| - 1]))
  }

  ghost predicate HeightMissing(data: seq<Byte>, i: nat, at: seq<nat>) { LeadsOn(data, at) && at[0] == i && at[|at| - 1] == |data| }

  lemma LeadsFrom(data: seq<Byte>, i: nat, at: seq<nat>)
    requires LeadsOn(data, at) && FieldEnds(data, i, at[0]) && !IsField(data, i, 1, 0)
    ensures LeadsOn(data, [i] + at)
  {
    var all := [i] + at;
    forall k | 0 <= k < |all| - 1 ensures FieldEnds(data, all[k], all[k + 1]) && !IsField(data, all[k], 1, 0) {
      if k > 0 {
        assert FieldEnds(data, at[k - 1], at[k]) && !IsField(data, at[k - 1], 1, 0);
      }
    }
  }

  lemma BlockStep(data: seq<Byte>, i: nat, j: nat)
    requires FieldEnds(data, i, j) && i < j <= |data|
    ensures IsField(data, i, 1, 0) ==> BlockFields(data, i) == Ok(NumberAt(data, BodyOf(data, i)))
    ensures !IsField(data, i, 1, 0) ==> BlockFields(data, i) == BlockFields(data, j)
  {
    FieldIs(data, i, j);
  }

  lemma {:induction false} BlockIsLed(data: seq<Byte>, i: nat) returns (at: seq<nat>)
    requires i <= |data| && BlockFields(data, i) != Err(MalformedResponse)
    ensures BlockFields(data, i).Ok? ==> HeightFound(data, i, at, BlockFields(data, i).value)
    ensures BlockFields(data, i).Err? ==> HeightMissing(data, i, at)
    decreases |data| - i
  {
    at := [i];
    if i < |data| {
      var key := ReadVarint(data, i, 0).value;
      var j := SkipField(data, key.0 % 8, key.1).value;
      FieldIs(data, i, j);
      BlockStep(data, i, j);
      if !IsField(data, i, 1, 0) {
        at := BlockIsLed(data, j);
        LeadsFrom(data, i, at);
        at := [i] + at;
      }
    }
  }

  lemma {:induction false} LedIsBlock(data: seq<Byte>, at: seq<nat>)
    requires LeadsOn(data, at) && at[0] <= |data| && at[|at| - 1] <= |data|
    ensures BlockFields(data, at[0]) == BlockFields(data, at[|at| - 1])
    decreases |at|
  {
    if |at| > 1 {
      assert FieldEnds(data, at[0], at[1]) && !IsField(data, at[0], 1, 0);
      FieldIs(data, at[0], at[1]);
      BlockStep(data, at[0], at[1]);
      var rest := at[1..];
      forall k | 0 <= k < |rest| - 1 ensures FieldEnds(data, rest[k], rest[k + 1]) && !IsField(data, rest[k], 1, 0) {
        assert FieldEnds(data, at[k + 1], at[k + 2]) && !IsField(data, at[k + 1], 1, 0);
      }
      LedIsBlock(data, rest);
    }
  }

  /**
   The latest block's height, from any payload that is not empty: whole fields lead up to the first field 1
   that is a varint, which is the height, and what follows it is not looked at; it is missing if whole
   fields without one fill the payload; and every other payload is malformed.
   */
  lemma LatestBlockIs(data: seq<Byte>, height: nat)
    ensures ParseLatestBlock(data) == Ok(height) <==> GrpcPayload(data).Some? && exists at :: HeightFound(GrpcPayload(data).value, 0, at, height)
    ensures ParseLatestBlock(data) == Err(MissingHeight)
       <==> GrpcPayload(data).Some? && GrpcPayload(data).value != [] && exists at :: HeightMissing(GrpcPayload(data).value, 0, at)
  {
    if GrpcPayload(data).Some? {
      var payload := GrpcPayload(data).value;
      if BlockFields(payload, 0) != Err(MalformedResponse) {
        var at := BlockIsLed(payload, 0);
      }
      forall at | HeightFound(payload, 0, at, height) ensures payload != [] && BlockFields(payload, 0) == Ok(height) {
        LedIsBlock(payload, at);
        var last := at[|at| - 1];
        var j: nat :| FieldEnds(payload, last, j);
        FieldIs(payload, last, j);
        BlockStep(payload, last, j);
      }
      forall at | HeightMissing(payload, 0, at) ensures BlockFields(payload, 0) == Err(MissingHeight) {
        LedIsBlock(payload, at);
      }
    }
  }

  // ----- the frame ------------------------------------------------------------------------------------------------

  /** Data is a frame of a payload exactly when it starts with the uncompressed frame of it: a short, cut off or compressed one is refused. */
  lemma FrameIs(data: seq<Byte>, payload: seq<Byte>)
    ensures GrpcPayload(data) == Some(payload) <==> |payload| < 0x1_0000_0000 && GrpcFrame(payload) <= data
  {
    if GrpcPayload(data) == Some(payload) {
      PayloadIsFramed(data);
    }
    if |payload| < 0x1_0000_0000 && GrpcFrame(payload) <= data {
      FrameRoundTrip(payload, data[|GrpcFrame(payload)|..]);
      assert data == GrpcFrame(payload) + data[|GrpcFrame(payload)|..];
    }
  }
}
