/**
 * x/wifimac/macaddress.go: GetMacAddress picks the hardware address of the first up,
 * non-loopback interface that has a non-loopback IPv4 address.
 * The interface listing, each interface's address listing and InterfaceByName are inputs.
 */
module WifiMac {
  import opened Options
  import opened Net
  import opened Errors

  /** net.IP.To4: a 4-byte address, or the last 4 bytes of an IPv4-mapped 16-byte address. */
  function To4(ip: seq<byte>): (r: Option<seq<byte>>)
    ensures r.Some? <==> |ip| == 4 || (|ip| == 16 && ip[..12] == MappedPrefix)
    ensures r.Some? ==> |r.value| == 4 && r.value == ip[|ip| - 4..]
  {
    if |ip| == 4 then Some(ip)
    else if |ip| == 16 && ip[..12] == MappedPrefix then Some(ip[12..])
    else None
  }

  /** ::ffff:0:0/96, the prefix of IPv4-mapped IPv6 addresses. */
  const MappedPrefix: seq<byte> := [0, 0, 0, 0, 0, 0, 0, 0, 0, 0, 0xff, 0xff]
  /** ::1 */
  const IPv6Loopback: seq<byte> := [0, 0, 0, 0, 0, 0, 0, 0, 0, 0, 0, 0, 0, 0, 0, 1]

  /** net.IP.IsLoopback: 127.0.0.0/8 for IPv4 (plain or mapped), ::1 otherwise. */
  function IsLoopback(ip: seq<byte>): bool {
    match To4(ip)
    case Some(ip4) => ip4[0] == 127
    case None => ip == IPv6Loopback
  }

  /** An interface address: an *net.IPNet, an *net.IPAddr, or some other net.Addr (no IP). */
  datatype Addr = NetAddr(ip: Option<seq<byte>>) | PlainAddr(ip: Option<seq<byte>>) | OtherAddr

  function AddrIP(a: Addr): Option<seq<byte>> {
    match a
    case NetAddr(ip) => ip
    case PlainAddr(ip) => ip
    case OtherAddr => None
  }

  /** An address qualifies when it has an IP that is neither loopback nor other than IPv4. */
  predicate Qualifies(a: Addr) {
    var ip := AddrIP(a);
    ip.Some? && !IsLoopback(ip.value) && To4(ip.value).Some?
  }

  /** What net.Interfaces reports of an interface: its name, FlagUp, FlagLoopback and Addrs(). */
  datatype Iface = Iface(name: string, up: bool, loopback: bool, addrs: Result<seq<Addr>>)

  /** A hardware address as InterfaceByName reports it, or its error. */
  type ByName = string -> Result<seq<byte>>

  const NotFound := Failure("not found network")

  predicate Skipped(f: Iface) {
    !f.up || f.loopback
  }

  predicate HasQualifying(addrs: seq<Addr>) {
    exists a :: a in addrs && Qualifies(a)
  }

  /** The specification of the interface scan, read interface by interface. */
  function MacAddressOf(ifaces: seq<Iface>, byName: ByName): Result<seq<byte>>
    decreases |ifaces|
  {
    if ifaces == [] then Err(NotFound)
    else
      var f := ifaces[0];
      if Skipped(f) then MacAddressOf(ifaces[1..], byName)
      else if f.addrs.Err? then Err(f.addrs.error)
      else if HasQualifying(f.addrs.value) then byName(f.name)
      else MacAddressOf(ifaces[1..], byName)
  }

  /** The outcome with the interface listing as an input. */
  function GetMacAddressSpec(listing: Result<seq<Iface>>, byName: ByName): Result<seq<byte>> {
    match listing
    case Err(e) => Err(e)
    case Ok(ifaces) => MacAddressOf(ifaces, byName)
  }

  /** The specification read from interface i on. */
  lemma MacAddressOfStep(ifaces: seq<Iface>, i: nat, byName: ByName)
    requires i < |ifaces|
    ensures var f := ifaces[i];
      MacAddressOf(ifaces[i..], byName)
        == if Skipped(f) then MacAddressOf(ifaces[i + 1..], byName)
           else if f.addrs.Err? then Err(f.addrs.error)
           else if HasQualifying(f.addrs.value) then byName(f.name)
           else MacAddressOf(ifaces[i + 1..], byName)
  {
    assert ifaces[i..][1..] == ifaces[i + 1..];
  }

  lemma NoneQualifies(addrs: seq<Addr>)
    requires forall k :: 0 <= k < |addrs| ==> !Qualifies(addrs[k])
    ensures !HasQualifying(addrs)
  {
    forall a | a in addrs
      ensures !Qualifies(a)
    {
      var k :| 0 <= k < |addrs| && addrs[k] == a;
    }
  }

  /** GetMacAddress: the nested loops over interfaces and addresses, proved against the specification. */
  method GetMacAddress(listing: Result<seq<Iface>>, byName: ByName) returns (r: Result<seq<byte>>)
    ensures r == GetMacAddressSpec(listing, byName)
  {
    if listing.Err? {
      return Err(listing.error);
    }
    var ifaces := listing.value;
    for i := 0 to |ifaces|
      invariant MacAddressOf(ifaces, byName) == MacAddressOf(ifaces[i..], byName)
    {
      var f := ifaces[i];
      MacAddressOfStep(ifaces, i, byName);
      if !f.up {
        continue;
      }
      if f.loopback {
        continue;
      }
      if f.addrs.Err? {
        return Err(f.addrs.error);
      }
      var addrs := f.addrs.value;
      for j := 0 to |addrs|
        invariant forall k :: 0 <= k < j ==> !Qualifies(addrs[k])
      {
        var ip := AddrIP(addrs[j]);
        if ip.None? || IsLoopback(ip.value) {
          continue;
        }
        if To4(ip.value).None? {
          continue;
        }
        assert HasQualifying(addrs) by {
          assert Qualifies(addrs[j]) && addrs[j] in addrs;
        }
        return byName(f.name);
      }
      NoneQualifies(addrs);
    }
    assert ifaces[|ifaces|..] == [];
    r := Err(NotFound);
  }

  /** An interface that is down or loopback has no influence on the outcome. */
  lemma {:induction false} SkippedInterfaceIsIgnored(a: seq<Iface>, f: Iface, b: seq<Iface>, byName: ByName)
    requires Skipped(f)
    ensures MacAddressOf(a + [f] + b, byName) == MacAddressOf(a + b, byName)
    decreases |a|
  {
    if a == [] {
      assert (a + [f] + b)[1..] == b;
      assert a + b == b;
    } else {
      assert (a + [f] + b)[1..] == a[1..] + [f] + b;
      assert (a + b)[1..] == a[1..] + b;
      SkippedInterfaceIsIgnored(a[1..], f, b, byName);
    }
  }

  /** An interface is passed over when it is skipped or lists only non-qualifying addresses. */
  predicate PassedOver(f: Iface) {
    Skipped(f) || (f.addrs.Ok? && !HasQualifying(f.addrs.value))
  }

  /**
   * The result is InterfaceByName of the first interface, in list order, that is examined and
   * has a qualifying address, when every earlier interface was passed over.
   */
  lemma {:induction false} FirstQualifyingInterfaceWins(ifaces: seq<Iface>, k: nat, byName: ByName)
    requires k < |ifaces|
    requires forall i :: 0 <= i < k ==> PassedOver(ifaces[i])
    requires !Skipped(ifaces[k]) && ifaces[k].addrs.Ok? && HasQualifying(ifaces[k].addrs.value)
    ensures MacAddressOf(ifaces, byName) == byName(ifaces[k].name)
    decreases k
  {
    if k > 0 {
      FirstQualifyingInterfaceWins(ifaces[1..], k - 1, byName);
    }
  }

  /** An address-listing error of an examined interface aborts, whatever comes after it. */
  lemma {:induction false} AddressListingErrorAborts(ifaces: seq<Iface>, k: nat, byName: ByName)
    requires k < |ifaces|
    requires forall i :: 0 <= i < k ==> PassedOver(ifaces[i])
    requires !Skipped(ifaces[k]) && ifaces[k].addrs.Err?
    ensures MacAddressOf(ifaces, byName) == Err(ifaces[k].addrs.error)
    decreases k
  {
    if k > 0 {
      AddressListingErrorAborts(ifaces[1..], k - 1, byName);
    }
  }

  /** When every interface is passed over the error is "not found network". */
  lemma {:induction false} NoCandidateMeansNotFound(ifaces: seq<Iface>, byName: ByName)
    requires forall i :: 0 <= i < |ifaces| ==> PassedOver(ifaces[i])
    ensures MacAddressOf(ifaces, byName) == Err(NotFound)
    decreases |ifaces|
  {
    if ifaces != [] {
      NoCandidateMeansNotFound(ifaces[1..], byName);
    }
  }

  /** A hardware address is only ever InterfaceByName's answer for an examined interface with a qualifying address. */
  lemma {:induction false} FoundComesFromQualifyingInterface(ifaces: seq<Iface>, byName: ByName)
    requires MacAddressOf(ifaces, byName).Ok?
    ensures exists k :: 0 <= k < |ifaces| && !Skipped(ifaces[k]) && ifaces[k].addrs.Ok?
              && HasQualifying(ifaces[k].addrs.value) && MacAddressOf(ifaces, byName) == byName(ifaces[k].name)
    decreases |ifaces|
  {
    var f := ifaces[0];
    if Skipped(f) || (f.addrs.Ok? && !HasQualifying(f.addrs.value)) {
      FoundComesFromQualifyingInterface(ifaces[1..], byName);
      var k :| 0 <= k < |ifaces[1..]| && !Skipped(ifaces[1..][k]) && ifaces[1..][k].addrs.Ok?
              && HasQualifying(ifaces[1..][k].addrs.value) && MacAddressOf(ifaces[1..], byName) == byName(ifaces[1..][k].name);
      assert ifaces[k + 1] == ifaces[1..][k];
    } else {
      assert !Skipped(ifaces[0]) && ifaces[0].addrs.Ok? && HasQualifying(ifaces[0].addrs.value);
    }
  }

  /**
   * An address qualifies exactly when it carries an IPv4 address, plain or ::ffff:-mapped,
   * outside 127.0.0.0/8; so a 16-byte address outside the mapping (::1 among them) never does.
   */
  lemma QualifiesExactly(a: Addr)
    ensures Qualifies(a) <==>
      (AddrIP(a).Some? &&
       var ip := AddrIP(a).value;
       (|ip| == 4 || (|ip| == 16 && ip[..12] == MappedPrefix)) && ip[|ip| - 4] != 127)
    ensures AddrIP(a).Some? && |AddrIP(a).value| == 16 && AddrIP(a).value[..12] != MappedPrefix ==> !Qualifies(a)
  {
    if AddrIP(a).Some? {
      var ip := AddrIP(a).value;
      if To4(ip).Some? {
        assert To4(ip).value[0] == ip[|ip| - 4];
      }
    }
  }

  const HexDigits := "0123456789abcdef"

  function HexValue(c: char): int {
    if '0' <= c <= '9' then c as int - '0' as int else c as int - 'a' as int + 10
  }

  /** Two lower-case hex digits of a byte. */
  function HexByte(b: byte): (s: string)
    ensures |s| == 2 && 16 * HexValue(s[0]) + HexValue(s[1]) == b
  {
    assert forall d | 0 <= d < 16 :: HexValue(HexDigits[d]) == d;
    [HexDigits[b / 16], HexDigits[b % 16]]
  }

  /** net.HardwareAddr.String: bytes as hex pairs joined by ':' ("" for an empty address). */
  function MacString(hw: seq<byte>): (s: string)
    ensures hw == [] <==> s == ""
    ensures hw != [] ==> |s| == 3 * |hw| - 1
  {
    if hw == [] then ""
    else if |hw| == 1 then HexByte(hw[0])
    else MacString(hw[..|hw| - 1]) + ":" + HexByte(hw[|hw| - 1])
  }

  /** A string of several pairs is the string of all but the last byte, ':', and the last pair. */
  lemma MacStringParts(hw: seq<byte>)
    requires |hw| > 1
    ensures var s := MacString(hw);
      s[..|s| - 3] == MacString(hw[..|hw| - 1]) && s[|s| - 2..] == HexByte(hw[|hw| - 1])
  {
    var p, h := MacString(hw[..|hw| - 1]), HexByte(hw[|hw| - 1]);
    var s := p + ":" + h;
    assert s[..|s| - 3] == p;
    assert s[|s| - 2..] == h;
  }

  lemma HexByteInjective(x: byte, y: byte)
    requires HexByte(x) == HexByte(y)
    ensures x == y
  {
  }

  /** Distinct hardware addresses have distinct strings, so comparing strings compares addresses. */
  lemma {:induction false} MacStringInjective(a: seq<byte>, b: seq<byte>)
    requires MacString(a) == MacString(b)
    ensures a == b
    decreases |a|
  {
    var s := MacString(a);
    if a != [] {
      var n := |a|;
      assert b != [] && |b| == n by {
        assert |s| == 3 * n - 1;
      }
      if n == 1 {
        assert s == HexByte(a[0]) && s == HexByte(b[0]);
        HexByteInjective(a[0], b[0]);
        assert a == [a[0]] && b == [b[0]];
      } else {
        MacStringParts(a);
        MacStringParts(b);
        HexByteInjective(a[n - 1], b[n - 1]);
        MacStringInjective(a[..n - 1], b[..n - 1]);
        assert a == a[..n - 1] + [a[n - 1]];
        assert b == b[..n - 1] + [b[n - 1]];
      }
    }
  }

  /**
   * The layout of the string: every byte but the last gives its hex pair followed by ':',
   * at positions 3i to 3i+2, and the last byte's pair ends the string.
   */
  lemma {:induction false} MacStringLayout(hw: seq<byte>)
    ensures var s := MacString(hw);
      && (forall i :: 0 <= i < |hw| - 1 ==> s[3 * i..3 * i + 3] == HexByte(hw[i]) + ":")
      && (hw != [] ==> s[|s| - 2..] == HexByte(hw[|hw| - 1]))
    decreases |hw|
  {
    var n := |hw|;
    if n > 1 {
      var hw' := hw[..n - 1];
      MacStringLayout(hw');
      var p, h := MacString(hw'), HexByte(hw[n - 1]);
      var s := MacString(hw);
      assert s == p + ":" + h;
      assert |p| == 3 * n - 4;
      forall i | 0 <= i < n - 1
        ensures s[3 * i..3 * i + 3] == HexByte(hw[i]) + ":"
      {
        assert hw[i] == hw'[i];
        if i < n - 2 {
          assert s[3 * i..3 * i + 3] == p[3 * i..3 * i + 3];
        } else {
          assert s[3 * i..3 * i + 3] == p[|p| - 2..] + ":";
        }
      }
      assert s[|s| - 2..] == h;
    }
  }
}
