/** Bluetooth addresses and the directory names derived from them
    (src/connection.rs, the first lines of handle_connection). */
module AddressName {
  import opened Common
  import opened FileTree

  function HexDigit(n: nat): char
    requires n < 16
  {
    "0123456789ABCDEF"[n]
  }

  /** Colon-separated upper-case hexadecimal bytes. */
  function ToText(a: Bytes): string {
    if a == [] then ""
    else [HexDigit(a[0] / 16), HexDigit(a[0] % 16)] + if |a| == 1 then "" else ":" + ToText(a[1..])
  }

  function Replace(s: string, from: char, to: char): string {
    seq(|s|, k requires 0 <= k < |s| => if s[k] == from then to else s[k])
  }

  function DirectoryName(a: Address): string {
    Replace(ToText(a), ':', '_')
  }

  function ConnectionDirectory(root: Path, a: Address): Path {
    root + [PeerDirectory(a)]
  }

  lemma HexDigitInjective(m: nat, n: nat)
    requires m < 16 && n < 16 && HexDigit(m) == HexDigit(n)
    ensures m == n
  {
    var digits := "0123456789ABCDEF";
    assert forall i: nat, j: nat | i < j < 16 :: digits[i] < digits[j];
  }

  lemma {:induction false} TextShape(a: Bytes, k: nat)
    requires k < |a|
    ensures |ToText(a)| == 3 * |a| - 1
    ensures ToText(a)[3 * k] == HexDigit(a[k] / 16) && ToText(a)[3 * k + 1] == HexDigit(a[k] % 16)
    ensures k + 1 < |a| ==> ToText(a)[3 * k + 2] == ':'
  {
    if |a| > 1 {
      TextShape(a[1..], if k == 0 then 0 else k - 1);
    }
  }

  lemma HexIsNotSeparator(n: nat)
    requires n < 16
    ensures HexDigit(n) != ':' && HexDigit(n) != '_'
  {
    var digits := "0123456789ABCDEF";
    assert forall i: nat | i < 16 :: digits[i] != ':' && digits[i] != '_';
  }

  lemma NameShape(a: Address, k: nat)
    requires k < 6
    ensures |DirectoryName(a)| == 17
    ensures DirectoryName(a)[3 * k] == HexDigit(a[k] / 16) && DirectoryName(a)[3 * k + 1] == HexDigit(a[k] % 16)
    ensures k < 5 ==> DirectoryName(a)[3 * k + 2] == '_'
  {
    TextShape(a, k);
    HexIsNotSeparator(a[k] / 16);
    HexIsNotSeparator(a[k] % 16);
  }

  /** The value of an upper-case hexadecimal digit. */
  function HexValue(c: char): int {
    if '0' <= c <= '9' then c as int - '0' as int else c as int - 'A' as int + 10
  }

  lemma HexValueOfDigit(n: nat)
    requires n < 16
    ensures HexValue(HexDigit(n)) == n
  {
    var digits := "0123456789ABCDEF";
    assert forall i: nat | i < 10 :: digits[i] as int == '0' as int + i;
    assert forall i: nat | 10 <= i < 16 :: digits[i] as int == 'A' as int + i - 10;
  }

  /** As documented, a directory name is the six bytes of the address, first to last, as
      two upper-case hexadecimal digits each, with underscores between. */
  lemma DirectoryNameReadsBack(a: Address, k: nat)
    requires k < 6
    ensures |DirectoryName(a)| == 17
    ensures 16 * HexValue(DirectoryName(a)[3 * k]) + HexValue(DirectoryName(a)[3 * k + 1]) == a[k]
    ensures k < 5 ==> DirectoryName(a)[3 * k + 2] == '_'
  {
    NameShape(a, k);
    HexValueOfDigit(a[k] / 16);
    HexValueOfDigit(a[k] % 16);
  }

  /** Two peers never share a connection directory. */
  lemma DirectoryNameInjective(a: Address, b: Address)
    ensures DirectoryName(a) == DirectoryName(b) <==> a == b
  {
    if DirectoryName(a) == DirectoryName(b) {
      forall k: nat | k < 6
        ensures a[k] == b[k]
      {
        NameShape(a, k);
        NameShape(b, k);
        HexDigitInjective(a[k] / 16, b[k] / 16);
        HexDigitInjective(a[k] % 16, b[k] % 16);
      }
    }
  }

  /** The text of a path component. */
  function Text(n: FileName): string {
    match n
    case SdpXml => "sdp.xml"
    case ServiceName => "service_name"
    case ServiceDescription => "service_description"
    case ProviderName => "provider_name"
    case DeviceSubclass => "device_subclass"
    case ReportDescriptor => "report_descriptor"
    case PhysicalDescriptor => "physical_descriptor"
    case Ready => "ready"
    case Control => "control"
    case Interrupt => "interrupt"
    case CommandSocket => "command"
    case EventSocket => "event"
    case PeerDirectory(address) => DirectoryName(address)
    case Foreign(text) => text
  }

  /** A connection directory is never called like one of the daemon's fixed names. */
  lemma DirectoryNameIsItsOwn(a: Address, n: FileName)
    requires !n.PeerDirectory? && !n.Foreign?
    ensures DirectoryName(a) != Text(n)
  {
    NameShape(a, 0);
    var name := DirectoryName(a);
    if n.ReportDescriptor? {
      assert name[2] == '_' && Text(n)[2] == 'p';
    } else {
      assert |name| == 17;
      assert |Text(n)| != 17;
    }
  }

  /** A connection directory is a single path component. */
  lemma DirectoryNameIsOneComponent(a: Address, k: nat)
    requires k < |DirectoryName(a)|
    ensures DirectoryName(a)[k] != '/'
  {
    NameShape(a, 0);
    NameShape(a, k / 3);
    var digits := "0123456789ABCDEF";
    assert forall i: nat | i < 16 :: digits[i] != '/';
    assert k == 3 * (k / 3) + k % 3;
  }

  /** Distinct components of the daemon have distinct texts, so that modelling them by
      constructors confuses no two paths. */
  lemma TextInjective(m: FileName, n: FileName)
    requires !m.Foreign? && !n.Foreign?
    ensures Text(m) == Text(n) <==> m == n
  {
    if m.PeerDirectory? && n.PeerDirectory? {
      DirectoryNameInjective(m.address, n.address);
    } else if m.PeerDirectory? {
      DirectoryNameIsItsOwn(m.address, n);
    } else if n.PeerDirectory? {
      DirectoryNameIsItsOwn(n.address, m);
    } else if Text(m) == Text(n) {
      FixedTexts(m, n);
    }
  }

  /** The fixed names differ in their first two characters or in length. */
  lemma FixedTexts(m: FileName, n: FileName)
    requires !m.Foreign? && !n.Foreign? && !m.PeerDirectory? && !n.PeerDirectory? && Text(m) == Text(n)
    ensures m == n
  {
    assert |Text(m)| == |Text(n)|;
    assert Text(m)[0] == Text(n)[0] && Text(m)[1] == Text(n)[1];
  }
}
