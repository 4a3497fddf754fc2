/**
 * driver/configuration/viper_provider.go: configuration lookups with defaults, and the
 * memoised web and API ports. viper's store is a map from keys to the values read from the
 * configuration file; viper's type casts are written out for the value kinds modelled.
 */
module ViperProvider {
  import opened Options
  import Decimal

  /** A configuration value as viper holds it. */
  datatype Value = Str(s: string) | Bool(b: bool) | Int(i: int) | Strings(items: seq<string>)

  const LogLevelKey := "log.level"
  const UnifiSkipTLSVerifyKey := "unifi.skip_tls_verify"
  const UnifiIpKey := "unifi.ip"
  const UnifiUsernameKey := "unifi.username"
  const UnifiPasswordKey := "unifi.password"
  const WebPortKey := "web.port"
  const ApiPortKey := "api.port"
  const MessageTemplatesKey := "message.templates"
  const BootOptionMacAddressKey := "boot_option.mac_address"

  /** cast.ToString */
  function ToString(v: Value): string {
    match v
    case Str(s) => s
    case Bool(b) => if b then "true" else "false"
    case Int(i) => Decimal.IntToDecimal(i)
    case Strings(_) => ""
  }

  /** strconv.ParseBool's accepted spellings; anything else is an error, which cast turns into false. */
  function ParseBool(s: string): Option<bool> {
    if s in {"1", "t", "T", "TRUE", "true", "True"} then Some(true)
    else if s in {"0", "f", "F", "FALSE", "false", "False"} then Some(false)
    else None
  }

  /** cast.ToBool */
  function ToBool(v: Value): bool {
    match v
    case Bool(b) => b
    case Str(s) => ParseBool(s).GetOr(false)
    case Int(i) => i != 0
    case Strings(_) => false
  }

  /** cast.ToInt: a string is read by strconv.ParseInt with base 0; one that does not parse gives 0. */
  function ToInt(v: Value): int {
    match v
    case Int(i) => i
    case Str(s) => ParseIntBase0(s).GetOr(0)
    case Bool(b) => if b then 1 else 0
    case Strings(_) => 0
  }

  /** The value of c as a digit of the base (letters of either case from 10 on), if it is one. */
  function DigitOf(c: char, base: nat): (d: Option<nat>)
    ensures d.Some? ==> d.value < base
  {
    var v := if '0' <= c <= '9' then c as int - '0' as int
             else if 'a' <= c <= 'z' then c as int - 'a' as int + 10
             else if 'A' <= c <= 'Z' then c as int - 'A' as int + 10
             else 36;
    if v < base then Some(v) else None
  }

  /** The value of a string of digits of the base, most significant first ("" reads as 0); None at a non-digit. */
  function DigitsIn(s: string, base: nat): Option<nat>
    decreases |s|
  {
    if s == [] then Some(0)
    else match (DigitsIn(s[..|s| - 1], base), DigitOf(s[|s| - 1], base))
      case (Some(v), Some(d)) => Some(v * base + d)
      case _ => None
  }

  /**
   * strconv.ParseUint with base 0: "0b", "0o" and "0x" (either case, with at least one more
   * character) select bases 2, 8 and 16, another leading '0' selects octal, anything else is
   * decimal; the empty string is an error.
   */
  function ParseUintBase0(s: string): Option<nat> {
    if s == [] then None
    else if s[0] == '0' && |s| >= 3 && (s[1] == 'b' || s[1] == 'B') then DigitsIn(s[2..], 2)
    else if s[0] == '0' && |s| >= 3 && (s[1] == 'o' || s[1] == 'O') then DigitsIn(s[2..], 8)
    else if s[0] == '0' && |s| >= 3 && (s[1] == 'x' || s[1] == 'X') then DigitsIn(s[2..], 16)
    else if s[0] == '0' then DigitsIn(s[1..], 8)
    else DigitsIn(s, 10)
  }

  const MinInt64 := -0x8000_0000_0000_0000
  const MaxInt64 := 0x7fff_ffff_ffff_ffff

  /** strconv.ParseInt(s, 0, 0) on a 64-bit platform: an optional sign, then ParseUintBase0; values outside int64 are range errors. */
  function ParseIntBase0(s: string): (r: Option<int>)
    ensures r.Some? ==> MinInt64 <= r.value <= MaxInt64
  {
    var digits := if s != [] && (s[0] == '+' || s[0] == '-') then s[1..] else s;
    match ParseUintBase0(digits)
    case None => None
    case Some(u) =>
      var v := if s != [] && s[0] == '-' then -(u as int) else u as int;
      if MinInt64 <= v <= MaxInt64 then Some(v) else None
  }

  lemma {:induction false} DigitsInDecimal(s: string)
    requires Decimal.AllDigits(s)
    ensures DigitsIn(s, 10) == Some(Decimal.DigitsValue(s))
    decreases |s|
  {
    if s != [] {
      DigitsInDecimal(s[..|s| - 1]);
    }
  }

  /** Every int64 that %d writes is read back by the base-0 parser. */
  lemma ParseIntBase0OfDecimal(n: int)
    requires MinInt64 <= n <= MaxInt64
    ensures ParseIntBase0(Decimal.IntToDecimal(n)) == Some(n)
  {
    var m := if n < 0 then -n else n;
    var d := Decimal.NatToDecimal(m);
    Decimal.DigitsValueOfNatToDecimal(m);
    if m == 0 {
      assert d == "0";
      assert ParseUintBase0(d) == DigitsIn([], 8);
    } else {
      assert d[0] != '0' && d[0] != '+' && d[0] != '-';
      DigitsInDecimal(d);
      assert ParseUintBase0(d) == Some(m);
      if n < 0 {
        var s := Decimal.IntToDecimal(n);
        assert s == "-" + d && s[1..] == d;
      }
    }
  }

  /** A leading '+' is accepted. */
  lemma PlusSignedPort()
    ensures ToInt(Str("+8080")) == 8080
  {
    assert "+8080"[1..] == "8080";
    assert "8080"[..3] == "808" && "808"[..2] == "80" && "80"[..1] == "8" && "8"[..0] == [];
  }

  /** A "0x" prefix reads the digits as hexadecimal. */
  lemma HexPort()
    ensures ToInt(Str("0x1F90")) == 8080
  {
    assert "0x1F90"[2..] == "1F90";
    assert "1F90"[..3] == "1F9" && "1F9"[..2] == "1F" && "1F"[..1] == "1" && "1"[..0] == [];
  }

  /** A leading zero reads the digits as octal, so "010" is 8 and a "08080" does not parse. */
  lemma LeadingZeroIsOctal()
    ensures ToInt(Str("010")) == 8
    ensures ToInt(Str("08080")) == 0
  {
    assert "010"[1..] == "10";
    assert "10"[..1] == "1" && "1"[..0] == [];
    assert "08080"[1..] == "8080";
    assert "8080"[..3] == "808" && "808"[..2] == "80" && "80"[..1] == "8" && "8"[..0] == [];
  }

  /** The white space strings.Fields splits at (ASCII, NEL and NBSP). */
  predicate IsSpace(c: char) {
    c == ' ' || c == '\t' || c == '\n' || c == '\r' || c == '\U{000B}' || c == '\U{000C}' || c == '\U{0085}' || c == '\U{00A0}'
  }

  /** strings.Fields: the maximal runs of non-space characters, in order. */
  function Fields(s: string): (fs: seq<string>)
    ensures forall i :: 0 <= i < |fs| ==> fs[i] != "" && forall j :: 0 <= j < |fs[i]| ==> !IsSpace(fs[i][j])
    decreases |s|
  {
    if s == [] then []
    else if IsSpace(s[0]) then Fields(s[1..])
    else
      var k := WordEnd(s);
      [s[..k]] + Fields(s[k..])
  }

  function WordEnd(s: string): (k: nat)
    requires s != [] && !IsSpace(s[0])
    ensures 0 < k <= |s|
    ensures forall j :: 0 <= j < k ==> !IsSpace(s[j])
    ensures k < |s| ==> IsSpace(s[k])
    decreases |s|
  {
    if |s| == 1 || IsSpace(s[1]) then 1 else 1 + WordEnd(s[1..])
  }

  /** The characters of s that are not white space, in order. */
  function NonSpace(s: string): string
    decreases |s|
  {
    if s == [] then [] else (if IsSpace(s[0]) then [] else [s[0]]) + NonSpace(s[1..])
  }

  function Concat(fs: seq<string>): string
    decreases |fs|
  {
    if fs == [] then [] else fs[0] + Concat(fs[1..])
  }

  /** strings.Join(ws, " ") */
  function Unwords(ws: seq<string>): string
    decreases |ws|
  {
    if ws == [] then [] else if |ws| == 1 then ws[0] else ws[0] + " " + Unwords(ws[1..])
  }

  lemma {:induction false} NonSpaceConcat(x: string, y: string)
    ensures NonSpace(x + y) == NonSpace(x) + NonSpace(y)
    decreases |x|
  {
    if x != [] {
      assert (x + y)[1..] == x[1..] + y;
      NonSpaceConcat(x[1..], y);
    } else {
      assert x + y == y;
    }
  }

  lemma {:induction false} NonSpaceOfWord(w: string)
    requires forall j :: 0 <= j < |w| ==> !IsSpace(w[j])
    ensures NonSpace(w) == w
    decreases |w|
  {
    if w != [] {
      NonSpaceOfWord(w[1..]);
      assert w == [w[0]] + w[1..];
    }
  }

  /** The fields hold exactly the characters of s that are not white space, in order. */
  lemma {:induction false} FieldsKeepsNonSpace(s: string)
    ensures Concat(Fields(s)) == NonSpace(s)
    decreases |s|
  {
    if s != [] {
      if IsSpace(s[0]) {
        FieldsKeepsNonSpace(s[1..]);
      } else {
        var k := WordEnd(s);
        FieldsKeepsNonSpace(s[k..]);
        assert s == s[..k] + s[k..];
        NonSpaceConcat(s[..k], s[k..]);
        NonSpaceOfWord(s[..k]);
        assert Concat(Fields(s)) == s[..k] + Concat(Fields(s[k..]));
      }
    }
  }

  /** A word ends at the same place whatever follows it after a white-space character. */
  lemma {:induction false} WordEndBeforeSpace(a: string, t: string)
    requires a != [] && !IsSpace(a[0]) && t != [] && IsSpace(t[0])
    ensures WordEnd(a + t) == WordEnd(a)
    decreases |a|
  {
    if |a| > 1 && !IsSpace(a[1]) {
      assert (a + t)[1..] == a[1..] + t;
      WordEndBeforeSpace(a[1..], t);
    }
  }

  /** Splitting at a white-space character: the fields on either side, in order. */
  lemma {:induction false} FieldsSplitAtSpace(a: string, c: char, b: string)
    requires IsSpace(c)
    ensures Fields(a + [c] + b) == Fields(a) + Fields(b)
    decreases |a|
  {
    var s := a + [c] + b;
    if a == [] {
      assert s == [c] + b && s[1..] == b;
    } else if IsSpace(a[0]) {
      assert s[1..] == a[1..] + [c] + b;
      FieldsSplitAtSpace(a[1..], c, b);
    } else {
      WordEndBeforeSpace(a, [c] + b);
      assert s == a + ([c] + b);
      var k := WordEnd(a);
      assert s[..k] == a[..k];
      assert s[k..] == a[k..] + [c] + b;
      FieldsSplitAtSpace(a[k..], c, b);
    }
  }

  /** A string without white space is one field. */
  lemma FieldsOfWord(s: string)
    requires s != [] && forall j :: 0 <= j < |s| ==> !IsSpace(s[j])
    ensures Fields(s) == [s]
  {
    var k := WordEnd(s);
    assert k == |s|;
    assert s[..k] == s && s[k..] == [];
  }

  /** Non-empty words without white space, joined with single spaces, split back into the same words. */
  lemma {:induction false} FieldsOfUnwords(ws: seq<string>)
    requires forall i :: 0 <= i < |ws| ==> ws[i] != [] && forall j :: 0 <= j < |ws[i]| ==> !IsSpace(ws[i][j])
    ensures Fields(Unwords(ws)) == ws
    decreases |ws|
  {
    if |ws| == 1 {
      FieldsOfWord(ws[0]);
    } else if |ws| > 1 {
      FieldsOfUnwords(ws[1..]);
      FieldsSplitAtSpace(ws[0], ' ', Unwords(ws[1..]));
      FieldsOfWord(ws[0]);
      assert ws[0] + " " + Unwords(ws[1..]) == ws[0] + [' '] + Unwords(ws[1..]);
    }
  }

  /** cast.ToStringSlice: a list as it is, a string split by strings.Fields, any other value as its one-element text. */
  function ToStringSlice(v: Value): seq<string> {
    match v
    case Strings(items) => items
    case Str(s) => Fields(s)
    case _ => [ToString(v)]
  }

  /** The lowest index of a non-zero port in the sequence, or its length. */
  function FirstNonZero(ports: seq<int>): (k: nat)
    ensures k <= |ports|
    ensures forall j :: 0 <= j < k ==> ports[j] == 0
    ensures k < |ports| ==> ports[k] != 0
    decreases |ports|
  {
    if ports == [] || ports[0] != 0 then 0 else 1 + FirstNonZero(ports[1..])
  }

  class Provider {
    var values: map<string, Value>

    constructor (values: map<string, Value>)
      ensures this.values == values
    {
      this.values := values;
    }

    /** viper.GetString: "" for an unset key. */
    function GetString(key: string): string
      reads this
    {
      if key in values then ToString(values[key]) else ""
    }

    /** viper.GetInt: 0 for an unset key. */
    function GetInt(key: string): int
      reads this
    {
      if key in values then ToInt(values[key]) else 0
    }

    /** getString: the default iff the stored text is empty. */
    function GetStringOr(key: string, default: string): (r: string)
      reads this
      ensures GetString(key) == "" ==> r == default
      ensures GetString(key) != "" ==> r == GetString(key)
      ensures r == default <==> GetString(key) == "" || GetString(key) == default
    {
      var v := GetString(key);
      if v == "" then default else v
    }

    /** getBool: the default iff the key is unset; a stored value is cast, so a stored false stays false. */
    function GetBoolOr(key: string, default: bool): (r: bool)
      reads this
      ensures key !in values ==> r == default
      ensures key in values ==> r == ToBool(values[key])
    {
      if key !in values then default else ToBool(values[key])
    }

    function LogLevel(): (r: string)
      reads this
      ensures GetString(LogLevelKey) == "" ==> r == "info"
      ensures GetString(LogLevelKey) != "" ==> r == GetString(LogLevelKey)
    {
      GetStringOr(LogLevelKey, "info")
    }

    function UnifiSkipTLSVerify(): (r: bool)
      reads this
      ensures UnifiSkipTLSVerifyKey !in values ==> r
      ensures UnifiSkipTLSVerifyKey in values ==> r == ToBool(values[UnifiSkipTLSVerifyKey])
    {
      GetBoolOr(UnifiSkipTLSVerifyKey, true)
    }

    function UnifiIp(): string reads this { GetString(UnifiIpKey) }
    function UnifiUsername(): string reads this { GetString(UnifiUsernameKey) }
    function UnifiPassword(): string reads this { GetString(UnifiPasswordKey) }
    function BootOptionMacAddress(): string reads this { GetString(BootOptionMacAddressKey) }

    /** MessageList: the templates as stored; a plain string is split at white space. */
    function MessageList(): (r: seq<string>)
      reads this
      ensures MessageTemplatesKey !in values ==> r == []
      ensures MessageTemplatesKey in values && values[MessageTemplatesKey].Strings? ==> r == values[MessageTemplatesKey].items
      ensures MessageTemplatesKey in values && values[MessageTemplatesKey].Str? ==> r == Fields(values[MessageTemplatesKey].s)
      ensures MessageTemplatesKey in values && (values[MessageTemplatesKey].Int? || values[MessageTemplatesKey].Bool?) ==>
        r == [ToString(values[MessageTemplatesKey])]
    {
      if MessageTemplatesKey in values then ToStringSlice(values[MessageTemplatesKey]) else []
    }

    /**
     * WebPort / ApiPort: a non-zero stored port is returned as it is; at 0, a free port is
     * stored and the lookup starts again (a failed GetFreePort gives 0, and it tries again).
     * freePorts lists successive GetFreePort answers; None: still looking when they run out.
     */
    method Port(key: string, freePorts: seq<int>) returns (r: Option<int>)
      modifies this
      decreases |freePorts|
      ensures old(GetInt(key)) != 0 ==> r == Some(old(GetInt(key))) && values == old(values)
      ensures old(GetInt(key)) == 0 && FirstNonZero(freePorts) < |freePorts| ==>
        r == Some(freePorts[FirstNonZero(freePorts)]) && values == old(values)[key := Int(freePorts[FirstNonZero(freePorts)])]
      ensures old(GetInt(key)) == 0 && FirstNonZero(freePorts) == |freePorts| ==> r == None
      ensures r.Some? ==> r.value != 0 && GetInt(key) == r.value
    {
      var port := GetInt(key);
      if port == 0 {
        if freePorts == [] {
          return None;
        }
        values := values[key := Int(freePorts[0])];
        r := Port(key, freePorts[1..]);
        return;
      }
      r := Some(port);
    }

    method WebPort(freePorts: seq<int>) returns (r: Option<int>)
      modifies this
      ensures old(GetInt(WebPortKey)) != 0 ==> r == Some(old(GetInt(WebPortKey))) && values == old(values)
      ensures old(GetInt(WebPortKey)) == 0 && FirstNonZero(freePorts) < |freePorts| ==>
        r == Some(freePorts[FirstNonZero(freePorts)]) && values == old(values)[WebPortKey := Int(freePorts[FirstNonZero(freePorts)])]
      ensures old(GetInt(WebPortKey)) == 0 && FirstNonZero(freePorts) == |freePorts| ==> r == None
      ensures r.Some? ==> r.value != 0 && GetInt(WebPortKey) == r.value
    {
      r := Port(WebPortKey, freePorts);
    }

    method ApiPort(freePorts: seq<int>) returns (r: Option<int>)
      modifies this
      ensures old(GetInt(ApiPortKey)) != 0 ==> r == Some(old(GetInt(ApiPortKey))) && values == old(values)
      ensures old(GetInt(ApiPortKey)) == 0 && FirstNonZero(freePorts) < |freePorts| ==>
        r == Some(freePorts[FirstNonZero(freePorts)]) && values == old(values)[ApiPortKey := Int(freePorts[FirstNonZero(freePorts)])]
      ensures old(GetInt(ApiPortKey)) == 0 && FirstNonZero(freePorts) == |freePorts| ==> r == None
      ensures r.Some? ==> r.value != 0 && GetInt(ApiPortKey) == r.value
    {
      r := Port(ApiPortKey, freePorts);
    }
  }
}
