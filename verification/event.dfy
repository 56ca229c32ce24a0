/** The byte form of server events, from src/event.rs. */
module Event {
  import opened Common

  type U64 = n: nat | n < 0x1_0000_0000_0000_0000

  datatype ServerEvent =
    | Lagged(skipped: U64)
    | ControlListening(address: Address)
    | InterruptListening(address: Address)
    | Disconnected(address: Address)

  function Code(e: ServerEvent): Byte {
    match e
    case Lagged(_) => 0x01
    case ControlListening(_) => 0x02
    case InterruptListening(_) => 0x03
    case Disconnected(_) => 0x04
  }

  function Power256(k: nat): nat {
    if k == 0 then 1 else 256 * Power256(k - 1)
  }

  /** u64::to_le_bytes, with the width as a parameter. */
  function LittleEndian(n: nat, width: nat): Bytes {
    if width == 0 then [] else [n % 256] + LittleEndian(n / 256, width - 1)
  }

  function AsBytes(e: ServerEvent): Bytes {
    match e
    case Lagged(skipped) => [Code(e)] + LittleEndian(skipped, 8)
    case ControlListening(address) => [Code(e)] + address
    case InterruptListening(address) => [Code(e)] + address
    case Disconnected(address) => [Code(e)] + address
  }

  function Value(bs: Bytes): nat {
    if bs == [] then 0 else bs[0] + 256 * Value(bs[1..])
  }

  lemma {:induction false} ValueBound(bs: Bytes)
    ensures Value(bs) < Power256(|bs|)
  {
    if bs != [] {
      ValueBound(bs[1..]);
    }
  }

  lemma EightBytes()
    ensures Power256(8) == 0x1_0000_0000_0000_0000
  {
    assert Power256(4) == 256 * (256 * (256 * (256 * Power256(0))));
    assert Power256(8) == 256 * (256 * (256 * (256 * Power256(4))));
  }

  /** The reader's side: the code byte fixes the length of the message. */
  function Decode(bs: Bytes): Option<ServerEvent> {
    if |bs| == 9 && bs[0] == 0x01 then
      ValueBound(bs[1..]); EightBytes();
      Some(Lagged(Value(bs[1..])))
    else if |bs| == 7 && bs[0] == 0x02 then Some(ControlListening(bs[1..]))
    else if |bs| == 7 && bs[0] == 0x03 then Some(InterruptListening(bs[1..]))
    else if |bs| == 7 && bs[0] == 0x04 then Some(Disconnected(bs[1..]))
    else None
  }

  lemma {:induction false} LittleEndianValue(n: nat, width: nat)
    requires n < Power256(width)
    ensures |LittleEndian(n, width)| == width
    ensures Value(LittleEndian(n, width)) == n
  {
    if width > 0 {
      LittleEndianValue(n / 256, width - 1);
      assert LittleEndian(n, width)[1..] == LittleEndian(n / 256, width - 1);
    }
  }

  lemma {:induction false} ValueLittleEndian(bs: Bytes)
    ensures LittleEndian(Value(bs), |bs|) == bs
  {
    if bs != [] {
      ValueLittleEndian(bs[1..]);
      assert Value(bs) % 256 == bs[0] && Value(bs) / 256 == Value(bs[1..]);
    }
  }

  /** Every event is recovered from its bytes, and every decodable message is the
      byte form of exactly one event. */
  lemma RoundTrip(e: ServerEvent, bs: Bytes)
    ensures Decode(AsBytes(e)) == Some(e)
    ensures Decode(bs).Some? ==> AsBytes(Decode(bs).value) == bs
    ensures Decode(bs) == Some(e) <==> bs == AsBytes(e)
  {
    EightBytes();
    if e.Lagged? {
      LittleEndianValue(e.skipped, 8);
      assert AsBytes(e)[1..] == LittleEndian(e.skipped, 8);
    } else {
      assert AsBytes(e)[1..] == e.address;
    }
    if Decode(bs).Some? {
      assert bs == [bs[0]] + bs[1..];
      ValueLittleEndian(bs[1..]);
    }
  }

  /** The code byte alone tells how long a message is, and no message is a proper
      prefix of another one. */
  lemma SelfDelimiting(e: ServerEvent, f: ServerEvent)
    ensures AsBytes(e)[0] == Code(e) && |AsBytes(e)| == if Code(e) == 0x01 then 9 else 7
    ensures AsBytes(e) <= AsBytes(f) ==> e == f
  {
    EightBytes();
    if e.Lagged? { LittleEndianValue(e.skipped, 8); }
    if f.Lagged? { LittleEndianValue(f.skipped, 8); }
    if AsBytes(e) <= AsBytes(f) {
      assert AsBytes(e)[0] == AsBytes(f)[0];
      assert |AsBytes(e)| == |AsBytes(f)|;
      assert AsBytes(e) == AsBytes(f);
      RoundTrip(e, AsBytes(f));
      RoundTrip(f, AsBytes(f));
    }
  }
}
