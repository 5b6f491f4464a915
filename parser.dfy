/**
 * `parse_message`: turns a decoded socket envelope into the update payloads it carries, the
 * snapshot it carries, or nothing.  An update list under "M" takes precedence over a snapshot
 * under "R"; an empty list yields nothing.
 */
module Parser {
  import opened Wrappers
  import opened Json
  import opened Foreign
  import Models

  datatype ParsedMessage =
    | Update(payloads: seq<Value>)
    | Replay(snapshot: Models.Data)
    | Empty

  /** What `parse_message` returns for an envelope. */
  function Classify(msg: Models.SocketMessage): (r: ParsedMessage)
    ensures r.Update? <==> msg.m.Some? && |msg.m.value| > 0
    ensures r.Update? ==> |r.payloads| == |msg.m.value| > 0
    ensures r.Update? ==> forall i :: 0 <= i < |r.payloads| ==> r.payloads[i] == msg.m.value[i].a.payload
    ensures r.Replay? <==> msg.m.None? && msg.r.Some?
    ensures r.Replay? ==> r.snapshot == msg.r.value
    ensures r.Empty? <==> (msg.m.Some? && |msg.m.value| == 0) || (msg.m.None? && msg.r.None?)
  {
    match msg.m
    case Some(updates) =>
      if |updates| < 1 then Empty
      else Update(seq(|updates|, i requires 0 <= i < |updates| => updates[i].a.payload))
    case None =>
      match msg.r
      case Some(replay) => Replay(replay)
      case None => Empty
  }

  /** `parse_message` on an envelope already decoded: the payload list is built by a loop. */
  method ParseMessage(msg: Models.SocketMessage) returns (r: ParsedMessage)
    ensures r == Classify(msg)
  {
    if msg.m.Some? {
      var updates := msg.m.value;
      if |updates| < 1 {
        return Empty;
      }
      var payloads: seq<Value> := [];
      var i := 0;
      while i < |updates|
        invariant 0 <= i <= |updates|
        invariant |payloads| == i
        invariant forall j :: 0 <= j < i ==> payloads[j] == updates[j].a.payload
      {
        payloads := payloads + [updates[i].a.payload];
        i := i + 1;
      }
      return Update(payloads);
    }
    if msg.r.Some? {
      return Replay(msg.r.value);
    }
    return Empty;
  }

  /** Once "M" is present the snapshot is never looked at. */
  lemma UpdatesTakePrecedence(msg: Models.SocketMessage, other: Option<Models.Data>)
    requires msg.m.Some?
    ensures Classify(msg) == Classify(Models.SocketMessage(msg.m, other))
    ensures Classify(msg).Replay? == false
  {
  }

  /** The raw feed message: JSON text that is not a valid envelope aborts, so only envelopes
      that decode are classified. */
  ghost function ParseRaw(v: Value, ext: Externals): (r: ParsedMessage)
    requires Models.DecodeSocketMessage(v, ext).Some?
    ensures r.Update? <==> "M" in v.fields && v.fields["M"].Array? && |v.fields["M"].items| > 0
    ensures r.Update? ==> |r.payloads| == |v.fields["M"].items|
    ensures r.Replay? <==> ("M" !in v.fields || v.fields["M"] == Null) && "R" in v.fields && v.fields["R"] != Null
  {
    Classify(Models.DecodeSocketMessage(v, ext).value)
  }

  /** For a raw envelope with a non-empty "M", the i-th payload is that of the update decoded
      from the i-th message's "A" triple: the triple's middle element, unless a variant helper
      read the triple. */
  lemma {:induction false} RawUpdatePayloads(v: Value, ext: Externals, i: nat)
    requires Models.DecodeSocketMessage(v, ext).Some?
    requires "M" in v.fields && v.fields["M"].Array? && i < |v.fields["M"].items|
    ensures ParseRaw(v, ext).Update?
    ensures v.fields["M"].items[i].Object? && "A" in v.fields["M"].items[i].fields
    ensures Models.DecodeUpdate(v.fields["M"].items[i].fields["A"], ext).Some?
    ensures ParseRaw(v, ext).payloads[i] == Models.DecodeUpdate(v.fields["M"].items[i].fields["A"], ext).value.payload
    ensures !Models.ByVariantHelper(Models.DecodeUpdate(v.fields["M"].items[i].fields["A"], ext).value.category) ==>
              ParseRaw(v, ext).payloads[i] == v.fields["M"].items[i].fields["A"].items[1]
  {
    var msg := Models.DecodeSocketMessage(v, ext).value;
    assert msg.m.Some?;
    var message := v.fields["M"].items[i];
    assert Models.DecodeMessage(message, ext) == Some(msg.m.value[i]);
    assert Models.DecodeUpdate(message.fields["A"], ext) == Some(msg.m.value[i].a);
  }

  /** For a raw envelope without "M" but with a snapshot under "R", the replay carries exactly
      the snapshot decoded from "R". */
  lemma RawReplay(v: Value, ext: Externals)
    requires Models.DecodeSocketMessage(v, ext).Some?
    requires "M" !in v.fields || v.fields["M"] == Null
    requires "R" in v.fields && v.fields["R"] != Null
    ensures ParseRaw(v, ext).Replay?
    ensures Models.DecodeData(v.fields["R"], ext) == Some(ParseRaw(v, ext).snapshot)
  {
  }
}
