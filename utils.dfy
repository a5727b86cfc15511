/**
  Helpers of the component library: shortening an account address for
  display, the positivity test on optional amounts, and the visibility rule
  for hidden posts and spaces.
 */
module Utils {
  import opened JsValues

  /** `ZERO` and `ONE`, the bn.js constants 0 and 1. */
  const Zero: int := 0
  const One: int := 1

  /** Addresses up to this length are shown in full. */
  const ShortLength: nat := 13

  /** How many characters are kept at each end of a long address. */
  const KeptChars: nat := 6

  /** The horizontal ellipsis between the two kept ends. */
  const Ellipsis: char := '\U{2026}'

  /** `(_address || '').toString()`: the address text, empty when the address is absent or empty. */
  function AddressText(address: Option<string>): (s: string)
    ensures Truthy(address) ==> s == address.value
    ensures !Truthy(address) ==> s == ""
  {
    if Truthy(address) then address.value else ""
  }

  /**
    `toShortAddress`: an address longer than 13 characters becomes its first
    six characters, an ellipsis and its last six; a shorter one is unchanged.
   */
  function ToShortAddress(address: Option<string>): (r: string)
    ensures |r| <= ShortLength
    ensures !Truthy(address) ==> r == ""
    ensures Truthy(address) && |address.value| <= ShortLength ==> r == address.value
    ensures Truthy(address) && |address.value| > ShortLength ==>
      && |r| == ShortLength
      && r[..KeptChars] == address.value[..KeptChars]
      && r[KeptChars] == Ellipsis
      && r[KeptChars + 1..] == address.value[|address.value| - KeptChars..]
  {
    var s := AddressText(address);
    if |s| > ShortLength then s[..KeptChars] + [Ellipsis] + s[|s| - KeptChars..] else s
  }

  /** The shortened address is as long as the address, capped at 13 characters. */
  lemma ShortAddressLength(address: Option<string>)
    ensures |ToShortAddress(address)| ==
      if |AddressText(address)| <= ShortLength then |AddressText(address)| else ShortLength
  {
  }

  /** Shortening an already shortened address changes nothing. */
  lemma ShortAddressIdempotent(address: Option<string>)
    ensures ToShortAddress(Some(ToShortAddress(address))) == ToShortAddress(address)
  {
  }

  /**
    Shortening loses only the middle of a long address: the two kept ends can
    be read back from the result, and two addresses shorten alike exactly when
    they share those ends.
   */
  lemma ShortAddressKeepsEnds(a: string, b: string)
    requires |a| > ShortLength && |b| > ShortLength
    ensures ToShortAddress(Some(a)) == ToShortAddress(Some(b)) <==>
      a[..KeptChars] == b[..KeptChars] && a[|a| - KeptChars..] == b[|b| - KeptChars..]
  {
    var ra, rb := ToShortAddress(Some(a)), ToShortAddress(Some(b));
    if a[..KeptChars] == b[..KeptChars] && a[|a| - KeptChars..] == b[|b| - KeptChars..] {
      assert ra == a[..KeptChars] + [Ellipsis] + a[|a| - KeptChars..];
      assert rb == b[..KeptChars] + [Ellipsis] + b[|b| - KeptChars..];
    }
  }

  /** A value `gtZero` accepts: absent, a JavaScript number, a string, or a bn.js integer. */
  datatype Amount = Undefined | Number(n: real) | Text(s: string) | Big(v: int)

  /**
    `gtZero`: false when absent; for a number, whether it is positive;
    otherwise `new BN(n)` (here `parse`, which fails with `None`) compared with
    `ZERO`, a failed parse giving false.
   */
  function GtZero(n: Amount, parse: string -> Option<int>): (r: bool)
    ensures n.Undefined? ==> !r
    ensures n.Number? ==> (r <==> n.n > 0.0)
    ensures n.Text? ==> (r <==> parse(n.s).Some? && parse(n.s).value > Zero)
    ensures n.Big? ==> (r <==> n.v > Zero)
  {
    match n
    case Undefined => false
    case Number(x) => x > 0.0
    case Text(s) => parse(s).Some? && parse(s).value > Zero
    case Big(v) => v > Zero
  }

  /**
    The three present forms agree: a string that parses to `v`, the integer
    `v`, and the number `v` are all positive or all not.
   */
  lemma GtZeroFormsAgree(v: int, s: string, parse: string -> Option<int>)
    requires parse(s) == Some(v)
    ensures GtZero(Text(s), parse) == GtZero(Big(v), parse) == GtZero(Number(v as real), parse)
  {
  }

  /**
    The quantity an amount stands for: nothing when it is absent or its text
    does not parse, otherwise the number it denotes.
   */
  function Denotes(n: Amount, parse: string -> Option<int>): (q: Option<real>)
    ensures n.Undefined? ==> q.None?
    ensures n.Number? ==> q == Some(n.n)
    ensures n.Text? ==> (q.Some? <==> parse(n.s).Some?)
    ensures n.Big? ==> q == Some(n.v as real)
  {
    match n
    case Undefined => None
    case Number(x) => Some(x)
    case Text(s) => if parse(s).Some? then Some(parse(s).value as real) else None
    case Big(v) => Some(v as real)
  }

  /** `gtZero` holds exactly when the amount denotes a quantity and that quantity is positive. */
  lemma GtZeroMeansPositive(n: Amount, parse: string -> Option<int>)
    ensures GtZero(n, parse) <==> Denotes(n, parse).Some? && Denotes(n, parse).value > 0.0
  {
  }

  /**
    `isVisible`: a post or space is visible unless it is hidden and belongs
    to the current account (`isMyAddress`).
   */
  function IsVisible(hidden: bool, isMine: bool): (r: bool)
    ensures !hidden ==> r
    ensures hidden ==> (r <==> !isMine)
  {
    !hidden || !isMine
  }

  /** `isHidden`: the negation of `isVisible`; true only for the owner's own hidden struct. */
  function IsHidden(hidden: bool, isMine: bool): (r: bool)
    ensures r <==> !IsVisible(hidden, isMine)
    ensures r <==> hidden && isMine
  {
    !IsVisible(hidden, isMine)
  }
}
