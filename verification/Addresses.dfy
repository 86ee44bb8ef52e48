/** Address codecs: L1-to-L2 aliasing, and the three readers of an address in a storage word. */
module Addresses {
  import opened Wrappers
  import opened Hex

  const OFFSET: nat := 0x1111_0000_0000_0000_0000_0000_0000_0000_0000_1111

  // ---------------------------------------------------------------- aliasing

  function Alias(address: nat): nat { (address + OFFSET) % ADDRESS_SPACE }

  /** Subtraction that wraps around. */
  function UndoAlias(address: nat): nat
    requires address < ADDRESS_SPACE
  {
    if address >= OFFSET then address - OFFSET else address + ADDRESS_SPACE - OFFSET
  }

  /** What a `0x` string denotes for BigInt; None where BigInt throws. */
  function ParseBigInt(s: string): Option<nat> {
    if |s| > 2 && s[..2] == "0x" && AllHex(s[2..]) then Some(FromHex(s[2..])) else None
  }

  function ApplyAlias(address: string): Option<string> {
    var n := ParseBigInt(address);
    if n.None? then None else Some("0x" + PadStart(ToHex(Alias(n.value)), 40))
  }

  lemma AliasInRange(address: nat)
    ensures Alias(address) < ADDRESS_SPACE
    ensures address < ADDRESS_SPACE ==>
      Alias(address) == if address + OFFSET < ADDRESS_SPACE then address + OFFSET
                        else address + OFFSET - ADDRESS_SPACE
  {
  }

  /** Aliasing is a bijection on 160-bit addresses, across the wrap-around. */
  lemma AliasBijection(address: nat)
    requires address < ADDRESS_SPACE
    ensures UndoAlias(Alias(address)) == address
    ensures UndoAlias(address) < ADDRESS_SPACE && Alias(UndoAlias(address)) == address
  {
  }

  /** The repository's two vectors, one of which wraps around. */
  lemma AliasVectors()
    ensures UndoAlias(0x1111_0000_0000_0000_0000_0000_0000_0000_0000_1110) == ADDRESS_SPACE - 1
    ensures UndoAlias(0x1111_0000_0000_0000_0000_0000_0000_0817_59a8_85c4) == 0x817_59a8_74b3
    ensures Alias(ADDRESS_SPACE - 1) == 0x1111_0000_0000_0000_0000_0000_0000_0000_0000_1110
  {
  }

  /** The printed alias is always `0x` and exactly 40 lower-case digits, and denotes the
      alias of what was parsed; taking the offset off again gives the original back. */
  lemma ApplyAliasRoundTrip(address: string)
    requires ParseBigInt(address).Some?
    ensures var n, r := ParseBigInt(address).value, ApplyAlias(address);
      && r.Some? && |r.value| == 42 && r.value[..2] == "0x" && AllLowerHex(r.value[2..])
      && ParseBigInt(r.value) == Some(Alias(n))
      && (n < ADDRESS_SPACE ==> UndoAlias(ParseBigInt(r.value).value) == n)
  {
    var n := ParseBigInt(address).value;
    AliasInRange(n);
    PowOfAddress();
    ToHexLength(Alias(n), 40);
    PadStartValue(ToHex(Alias(n)), 40);
    FromHexToHex(Alias(n));
    var printed := PadStart(ToHex(Alias(n)), 40);
    assert ("0x" + printed)[2..] == printed && ("0x" + printed)[..2] == "0x";
    if n < ADDRESS_SPACE {
      AliasBijection(n);
    }
  }

  // ---------------------------------------------------------------- storage words

  /** A hex data string, as the RPC interface returns it. */
  predicate IsHexString(s: string) { |s| >= 2 && s[..2] == "0x" && AllHex(s[2..]) }

  function Denotes(s: string): nat
    requires IsHexString(s)
  {
    FromHex(s[2..])
  }

  /** `getAdminFromProxyStorage`, after the read. */
  function AdminIn(word: string): string {
    if |word| > 42 then "0x" + word[|word| - 40..] else word
  }

  /** The digits of a word, with a leading zero if their number is odd. */
  function EvenDigits(raw: string): (digits: string)
    requires IsHexString(raw)
    ensures AllHex(digits)
  {
    if |raw| % 2 == 1 then "0" + raw[2..] else raw[2..]
  }

  lemma EvenDigitsValue(raw: string)
    requires IsHexString(raw)
    ensures FromHex(EvenDigits(raw)) == FromHex(raw[2..])
  {
    if |raw| % 2 == 1 {
      assert FromHex("0") == 0;
      hide FromHex, Pow16;
      FromHexAppend("0", raw[2..]);
    }
  }

  /** The normalisation of a raw implementation word: pad to even length, lower the case,
      keep the last 40 digits. */
  function ImplementationIn(raw: string): string
    requires IsHexString(raw)
  {
    var lowered := "0x" + Lower(EvenDigits(raw));
    if |lowered| > 42 then "0x" + lowered[|lowered| - 40..] else lowered
  }

  /** `_getAddressAtStorageSlot` on a lower-case word; None where `getAddress` throws. */
  function AddressIn(word: string): Option<string> {
    if word == "" then Some("")
    else
      var format := (if |word| >= 2 then word[..2] else word) + (if |word| >= 26 then word[26..] else "");
      if |format| == 42 && IsHexString(format) then Some(format) else None
  }

  /** On every word the admin reader and the implementation reader denote the word modulo
      2^160, whatever its length; and the third reader agrees with them on a 32-byte word. */
  lemma ReadersAgree(word: string)
    requires IsHexString(word) && AllLowerHex(word[2..])
    ensures IsHexString(AdminIn(word)) && Denotes(AdminIn(word)) == Denotes(word) % ADDRESS_SPACE
    ensures IsHexString(ImplementationIn(word)) && Denotes(ImplementationIn(word)) == Denotes(word) % ADDRESS_SPACE
    ensures AddressIn(word).Some? <==> |word| == 66
    ensures |word| == 66 ==>
      IsHexString(AddressIn(word).value) && Denotes(AddressIn(word).value) == Denotes(word) % ADDRESS_SPACE
  {
    hide FromHex, AdminIn, ImplementationIn;
    AdminReader(word);
    ImplementationReader(word);
    if |word| == 66 {
      SlotReader(word);
    }
  }

  lemma SlotReader(word: string)
    requires IsHexString(word) && |word| == 66
    ensures AddressIn(word).Some? && IsHexString(AddressIn(word).value)
    ensures Denotes(AddressIn(word).value) == Denotes(word) % ADDRESS_SPACE
  {
    hide FromHex;
    assert word[..2] + word[26..] == "0x" + word[2..][64 - 40..];
    assert ("0x" + word[26..])[2..] == word[26..];
    LastFortyDigits(word[2..]);
  }

  /** A 32-byte word is printed as `0x` and 40 digits by each reader that takes it: the
      implementation in lower case, the admin as it stands. So strings can be compared: on a
      lower-case word all three readers print the same. */
  lemma ReadersPrint(word: string)
    requires IsHexString(word) && |word| == 66
    ensures AdminIn(word) == "0x" + word[26..] && |AdminIn(word)| == 42
    ensures ImplementationIn(word) == "0x" + Lower(word[26..]) && |ImplementationIn(word)| == 42
    ensures AllLowerHex(ImplementationIn(word)[2..])
    ensures AllLowerHex(word[2..]) ==> Some(AdminIn(word)) == AddressIn(word) && AdminIn(word) == ImplementationIn(word)
  {
    var digits := word[2..];
    assert word == "0x" + digits && digits[24..] == word[26..];
    var lowered := "0x" + Lower(digits);
    assert lowered[26..] == Lower(digits)[24..] == Lower(word[26..]);
    assert ImplementationIn(word)[2..] == Lower(word[26..]);
    if AllLowerHex(word[2..]) {
      assert Lower(word[26..]) == word[26..];
      assert word[..2] + word[26..] == "0x" + word[26..] && ("0x" + word[26..])[2..] == word[26..];
    }
  }

  lemma ShortIsSmall(digits: string)
    requires AllHex(digits) && |digits| <= 40
    ensures FromHex(digits) % ADDRESS_SPACE == FromHex(digits)
  {
    hide FromHex, Pow16;
    FromHexBelow(digits);
    PowOfAddress();
    PowGrows(|digits|, 40);
  }

  lemma KeepForty(word: string)
    requires IsHexString(word)
    ensures IsHexString(AdminIn(word)) && Denotes(AdminIn(word)) == Denotes(word) % ADDRESS_SPACE
  {
    if |word| > 42 {
      var digits := word[2..];
      assert word[|word| - 40..] == digits[|digits| - 40..];
      assert ("0x" + word[|word| - 40..])[2..] == word[|word| - 40..];
      LastFortyDigits(digits);
    } else {
      ShortIsSmall(word[2..]);
    }
  }

  lemma AdminReader(word: string)
    requires IsHexString(word)
    ensures IsHexString(AdminIn(word)) && Denotes(AdminIn(word)) == Denotes(word) % ADDRESS_SPACE
  {
    KeepForty(word);
  }

  /** Also for words of odd length, which it pads, and in any case, which it lowers. */
  lemma ImplementationReader(raw: string)
    requires IsHexString(raw)
    ensures IsHexString(ImplementationIn(raw)) && Denotes(ImplementationIn(raw)) == Denotes(raw) % ADDRESS_SPACE
  {
    var digits := EvenDigits(raw);
    EvenDigitsValue(raw);
    FromHexLower(digits);
    var lowered := "0x" + Lower(digits);
    assert lowered[2..] == Lower(digits) && lowered[..2] == "0x";
    KeepForty(lowered);
    hide FromHex;
    assert ImplementationIn(raw) == AdminIn(lowered);
  }
}
