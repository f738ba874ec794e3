/**
 * How `requestSerialPermissions` chooses the prober it enumerates devices
 * with: a custom probe table with one (vendor ID, product ID, driver family)
 * entry when both IDs are given, otherwise the library's default prober.
 */
module Probing {
  import opened Wrappers
  import opened Hex

  /** The five driver families of the serial library. */
  datatype DriverFamily = CdcAcm | Ch34x | Cp21xx | Ftdi | Prolific

  const CDC_ACM_SERIAL_DRIVER: string := "CdcAcmSerialDriver"
  const CH34X_SERIAL_DRIVER: string := "Ch34xSerialDriver"
  const CP21XX_SERIAL_DRIVER: string := "Cp21xxSerialDriver"
  const FTDI_SERIAL_DRIVER: string := "FtdiSerialDriver"
  const PROLIFIC_SERIAL_DRIVER: string := "ProlificSerialDriver"

  /** The name a caller passes as the `driver` option to select a family. */
  function DriverName(f: DriverFamily): string {
    match f
    case CdcAcm => CDC_ACM_SERIAL_DRIVER
    case Ch34x => CH34X_SERIAL_DRIVER
    case Cp21xx => CP21XX_SERIAL_DRIVER
    case Ftdi => FTDI_SERIAL_DRIVER
    case Prolific => PROLIFIC_SERIAL_DRIVER
  }

  predicate IsDriverName(name: string) {
    name == CDC_ACM_SERIAL_DRIVER || name == CH34X_SERIAL_DRIVER || name == CP21XX_SERIAL_DRIVER
    || name == FTDI_SERIAL_DRIVER || name == PROLIFIC_SERIAL_DRIVER
  }

  /**
   * The `when` table on `call.getString("driver", CDC_ACM_SERIAL_DRIVER)`:
   * `name` is None when the option is absent or not a string, and then the
   * default name applies; an unknown name also falls back to CDC-ACM.
   */
  function FamilyFor(name: Option<string>): (f: DriverFamily)
    ensures name.Some? && IsDriverName(name.value) ==> DriverName(f) == name.value
    ensures name.None? || !IsDriverName(name.value) ==> f == CdcAcm
  {
    var n := name.GetOr(CDC_ACM_SERIAL_DRIVER);
    if n == FTDI_SERIAL_DRIVER then Ftdi
    else if n == CDC_ACM_SERIAL_DRIVER then CdcAcm
    else if n == CP21XX_SERIAL_DRIVER then Cp21xx
    else if n == PROLIFIC_SERIAL_DRIVER then Prolific
    else if n == CH34X_SERIAL_DRIVER then Ch34x
    else CdcAcm
  }

  /** Every family is selected by its own name. */
  lemma FamilyForDriverName(f: DriverFamily)
    ensures IsDriverName(DriverName(f)) && FamilyFor(Some(DriverName(f))) == f
  {
    assert FTDI_SERIAL_DRIVER[0] == 'F' && PROLIFIC_SERIAL_DRIVER[0] == 'P';
    assert CDC_ACM_SERIAL_DRIVER[..2] == "Cd" && CH34X_SERIAL_DRIVER[..2] == "Ch" && CP21XX_SERIAL_DRIVER[..2] == "Cp";
  }

  /** A missing driver name, or one that names no family, selects CDC-ACM. */
  lemma FamilyForFallback(name: Option<string>)
    requires name.None? || !IsDriverName(name.value)
    ensures FamilyFor(name) == CdcAcm
  {
  }

  /** The value of the `vendorId` or `productId` option: a JSON number, a string, or anything else (null, a boolean, ...). */
  datatype IdValue = Number(n: int) | Text(s: string) | OtherValue

  const INT_MAX: int := 0x7FFF_FFFF
  const LONG_MAX: int := 0x7FFF_FFFF_FFFF_FFFF

  /** One or more hex digits whose value fits a 32-bit Int. */
  predicate IsHexNumeral(s: string) {
    |s| > 0 && IsHexString(s) && HexValue(s) <= INT_MAX
  }

  /**
   * A string `toInt(16)` accepts (restricted to ASCII digits): an optional
   * '+' or '-' and then one or more hex digits, whose signed value fits an Int.
   */
  predicate IsIntNumeral(s: string) {
    if |s| > 0 && (s[0] == '+' || s[0] == '-') then
      |s| > 1 && IsHexString(s[1..]) && HexValue(s[1..]) <= (if s[0] == '-' then INT_MAX + 1 else INT_MAX)
    else
      IsHexNumeral(s)
  }

  /** `toInt(16)` on a numeral it accepts. */
  function ParseInt16(s: string): (r: int)
    requires IsIntNumeral(s)
    ensures -INT_MAX - 1 <= r <= INT_MAX
    ensures IsHexNumeral(s) ==> r == HexValue(s)
    ensures s[0] == '-' ==> r == -(HexValue(s[1..]) as int)
  {
    if s[0] == '-' then -(HexValue(s[1..]) as int)
    else if s[0] == '+' then HexValue(s[1..])
    else HexValue(s)
  }

  predicate IdWellFormed(v: IdValue) {
    v.Text? ==> IsIntNumeral(v.s)
  }

  /** `Number.toInt()` on an integral number: the low 32 bits, read as a signed Int. */
  function ToInt32(n: int): (r: int)
    ensures -INT_MAX - 1 <= r <= INT_MAX
    ensures -INT_MAX - 1 <= n <= INT_MAX ==> r == n
    ensures (r - n) % 0x1_0000_0000 == 0
  {
    (n + 0x8000_0000) % 0x1_0000_0000 - 0x8000_0000
  }

  /**
   * `Number.toInt()` on the number a JSON integer literal becomes: an Int or
   * a Long within the 64-bit range, which narrows to its low 32 bits; beyond
   * that range a Double, whose `toInt()` saturates at the Int bounds.
   */
  function NumberToInt(n: int): (r: int)
    ensures -INT_MAX - 1 <= r <= INT_MAX
    ensures -INT_MAX - 1 <= n <= INT_MAX ==> r == n
    ensures -LONG_MAX - 1 <= n <= LONG_MAX ==> (r - n) % 0x1_0000_0000 == 0
    ensures n > LONG_MAX ==> r == INT_MAX
    ensures n < -LONG_MAX - 1 ==> r == -INT_MAX - 1
  {
    if n > LONG_MAX then INT_MAX
    else if n < -LONG_MAX - 1 then -INT_MAX - 1
    else ToInt32(n)
  }

  /** The `when` on a vendor or product ID: a number narrowed to Int, a string parsed base 16, anything else 0. */
  function ResolveId(v: IdValue): (r: int)
    requires IdWellFormed(v)
    ensures -INT_MAX - 1 <= r <= INT_MAX
    ensures v.Number? ==> r == NumberToInt(v.n)
    ensures v.Text? ==> r == ParseInt16(v.s)
    ensures v.OtherValue? ==> r == 0
  {
    match v
    case Number(n) => NumberToInt(n)
    case Text(s) => ParseInt16(s)
    case OtherValue => 0
  }

  /** An ID in the Int range resolves to itself whether given as a number or as its hex string, in either case. */
  lemma IdRepresentationsAgree(n: nat)
    requires n <= INT_MAX
    ensures IdWellFormed(Text(NatToHex(n))) && ResolveId(Text(NatToHex(n))) == n
    ensures ResolveId(Number(n)) == n
  {
    HexValueOfNatToHex(n);
  }

  /**
   * Every spelling of the same hex numeral resolves to the same ID: upper,
   * lower or mixed case, with a leading zero, with a '+' sign, and as the
   * number it denotes; a '-' sign negates it.
   */
  lemma HexSpellingsAgree(s: string)
    requires IsHexNumeral(s)
    ensures IdWellFormed(Text(s)) && ResolveId(Text(s)) == HexValue(s)
    ensures IdWellFormed(Text(Upper(s))) && ResolveId(Text(Upper(s))) == HexValue(s)
    ensures IdWellFormed(Text("0" + s)) && ResolveId(Text("0" + s)) == HexValue(s)
    ensures IdWellFormed(Text("+" + s)) && ResolveId(Text("+" + s)) == HexValue(s)
    ensures IdWellFormed(Text("-" + s)) && ResolveId(Text("-" + s)) == -(HexValue(s) as int)
    ensures ResolveId(Number(HexValue(s))) == HexValue(s)
  {
    HexValueIgnoresCase(s);
    HexValueLeadingZero(s);
    assert IsHexDigit(s[0]);
    assert IsHexDigit(Upper(s)[0]);
    assert ("+" + s)[1..] == s && ("-" + s)[1..] == s;
  }

  /** The options of `requestSerialPermissions`; None is an option the call does not have. */
  datatype PermissionOptions = PermissionOptions(vendorId: Option<IdValue>, productId: Option<IdValue>, driver: Option<string>)

  /** The IDs are parsed only when both are present; a lone ID is never read. */
  predicate PermissionOptionsWellFormed(o: PermissionOptions) {
    o.vendorId.Some? && o.productId.Some? ==> IdWellFormed(o.vendorId.value) && IdWellFormed(o.productId.value)
  }

  /** The prober devices are enumerated with. */
  datatype Prober = DefaultProber | CustomProber(vendorId: int, productId: int, family: DriverFamily)

  /** A custom table only when both IDs are present; otherwise the default prober. */
  function ProberFor(o: PermissionOptions): (p: Prober)
    requires PermissionOptionsWellFormed(o)
    ensures p.CustomProber? <==> o.vendorId.Some? && o.productId.Some?
    ensures p.CustomProber? ==> p.vendorId == ResolveId(o.vendorId.value) && p.productId == ResolveId(o.productId.value)
    ensures p.CustomProber? ==> p.family == FamilyFor(o.driver)
  {
    if o.vendorId.Some? && o.productId.Some? then
      CustomProber(ResolveId(o.vendorId.value), ResolveId(o.productId.value), FamilyFor(o.driver))
    else
      DefaultProber
  }
}
