/** server/service/service_construction.go: the call data of ERC-20 transfers and bridge unwraps, laid out as in
    the Solidity Contract ABI Specification, sections "Function Selector" and "Formal Specification of the Encoding". */
module CallData {
  import opened Rosetta
  import opened Bytes

  const WORD: nat := 32
  const CALL_DATA_LENGTH: nat := 68

  const TWO_160: int := 0x1_0000000000_0000000000_0000000000_0000000000
  const TWO_248: int := 0x1_00_0000000000_0000000000_0000000000_0000000000_0000000000_0000000000
  const TWO_256: int := 0x1_0000_0000000000_0000000000_0000000000_0000000000_0000000000_0000000000

  /** The first four bytes of the Keccak hash of the function signature. */
  type Selector = s: seq<byte> | |s| == 4 witness [0, 0, 0, 0]

  datatype ParseError = IncorrectLength | IncorrectMethod | IncorrectChainId

  function AddressBytes(a: Address): seq<byte> {
    LeftPad(Minimal(a), 20)
  }

  /** What two words after a selector look like; a number of more than 32 bytes is not cut. */
  function Encode(selector: Selector, first: seq<byte>, second: seq<byte>): seq<byte> {
    selector + LeftPad(first, WORD) + LeftPad(second, WORD)
  }

  function GenerateErc20TransferData(selector: Selector, to: Address, value: nat): seq<byte> {
    Encode(selector, AddressBytes(to), Minimal(value))
  }

  function GenerateUnwrapData(selector: Selector, value: nat, chainId: nat): seq<byte> {
    Encode(selector, Minimal(value), Minimal(chainId))
  }

  /** The parsers skip the first byte of each word. */
  function ParseErc20TransferData(selector: Selector, data: seq<byte>): Result<(Address, nat), ParseError> {
    if |data| != CALL_DATA_LENGTH then Err(IncorrectLength)
    else if data[..4] != selector then Err(IncorrectMethod)
    else
      BigEndianBound(Last(data[5..36], 20));
      Pow256Values();
      Ok((BigEndian(Last(data[5..36], 20)), BigEndian(data[37..])))
  }

  function ParseUnwrapData(selector: Selector, data: seq<byte>): Result<(nat, nat), ParseError> {
    if |data| != CALL_DATA_LENGTH then Err(IncorrectLength)
    else if data[..4] != selector then Err(IncorrectMethod)
    else
      var amount, chainId := BigEndian(data[5..36]), BigEndian(data[37..]);
      if LowUint64(chainId) != 0 then Err(IncorrectChainId) else Ok((amount, chainId))
  }

  lemma Pow256Values()
    ensures Pow256(20) == TWO_160
    ensures Pow256(31) == TWO_248
    ensures Pow256(32) == TWO_256
  {
    assert Pow256(4) == TWO_32;
    assert Pow256(8) == TWO_64;
    assert Pow256(20) == TWO_160;
  }

  /** The two numbers the parsers look at: the words without their first byte. */
  lemma WordsOf(data: seq<byte>)
    requires |data| == CALL_DATA_LENGTH
    ensures BigEndian(Last(data[5..36], 20)) == BigEndian(data[4..36]) % TWO_160
    ensures BigEndian(data[5..36]) == BigEndian(data[4..36]) % TWO_248
    ensures BigEndian(data[37..]) == BigEndian(data[36..]) % TWO_248
  {
    Pow256Values();
    BigEndianSuffix(data[4..36], 12);
    BigEndianSuffix(data[4..36], 1);
    BigEndianSuffix(data[36..], 1);
    assert Last(data[5..36], 20) == data[4..36][12..];
    assert data[5..36] == data[4..36][1..];
    assert data[37..] == data[36..][1..];
  }

  lemma EncodeLayout(selector: Selector, first: seq<byte>, second: seq<byte>)
    ensures var data := Encode(selector, first, second);
      && (|data| == CALL_DATA_LENGTH <==> |first| <= WORD && |second| <= WORD)
      && (|data| == CALL_DATA_LENGTH ==>
            && data[..4] == selector
            && BigEndian(data[4..36]) == BigEndian(first)
            && BigEndian(data[36..]) == BigEndian(second))
  {
    var data := Encode(selector, first, second);
    if |data| == CALL_DATA_LENGTH {
      PaddingKeepsValue(first, WORD);
      PaddingKeepsValue(second, WORD);
      assert data[4..36] == LeftPad(first, WORD);
      assert data[36..] == LeftPad(second, WORD);
    }
  }

  lemma AddressBytesSpell(a: Address)
    ensures |AddressBytes(a)| == 20 && BigEndian(AddressBytes(a)) == a
  {
    Pow256Values();
    MinimalFits(a, 20);
    MinimalSpells(a);
    PaddingKeepsValue(Minimal(a), 20);
  }

  lemma MinimalWord(v: nat)
    ensures |Minimal(v)| <= WORD <==> v < TWO_256
    ensures BigEndian(Minimal(v)) == v
  {
    Pow256Values();
    MinimalFits(v, WORD);
    MinimalSpells(v);
  }

  /** Main result: the transfer parser accepts exactly the values that fit a word, and returns them modulo 2^248. */
  lemma Erc20RoundTrip(selector: Selector, to: Address, value: nat)
    ensures ParseErc20TransferData(selector, GenerateErc20TransferData(selector, to, value)) ==
      if value < TWO_256 then Ok((to, value % TWO_248)) else Err(IncorrectLength)
  {
    hide BigEndian, Minimal, LeftPad, Encode;
    AddressBytesSpell(to);
    MinimalWord(value);
    EncodeLayout(selector, AddressBytes(to), Minimal(value));
    if value < TWO_256 {
      WordsOf(GenerateErc20TransferData(selector, to, value));
    }
  }

  /** So the round trip is the identity exactly below 2^248. */
  lemma Erc20IdentityIff(selector: Selector, to: Address, value: nat)
    ensures ParseErc20TransferData(selector, GenerateErc20TransferData(selector, to, value)) == Ok((to, value))
       <==> value < TWO_248
  {
    hide ParseErc20TransferData, GenerateErc20TransferData;
    Erc20RoundTrip(selector, to, value);
  }

  /** The whole amount of a transfer of 2^248 disappears. */
  lemma LargeTransferParsesAsZero(selector: Selector, to: Address)
    ensures ParseErc20TransferData(selector, GenerateErc20TransferData(selector, to, TWO_248)) == Ok((to, 0))
  {
    hide ParseErc20TransferData, GenerateErc20TransferData;
    Erc20RoundTrip(selector, to, TWO_248);
  }

  /** Partner: accepted data is what the generator makes of its parse exactly when the skipped bytes are zero. */
  lemma Erc20CanonicalIff(selector: Selector, data: seq<byte>)
    requires ParseErc20TransferData(selector, data).Ok?
    ensures var parsed := ParseErc20TransferData(selector, data).value;
      (GenerateErc20TransferData(selector, parsed.0, parsed.1) == data) <==>
      BigEndian(data[4..36]) < TWO_160 && BigEndian(data[36..]) < TWO_248
  {
    hide BigEndian, Minimal, LeftPad, Encode;
    WordsOf(data);
    var (to, value) := ParseErc20TransferData(selector, data).value;
    GeneratesIff(selector, to, value, data);
  }

  lemma GeneratesIff(selector: Selector, to: Address, value: nat, data: seq<byte>)
    requires value < TWO_256
    requires |data| == CALL_DATA_LENGTH && data[..4] == selector
    ensures (GenerateErc20TransferData(selector, to, value) == data) <==>
      BigEndian(data[4..36]) == to && BigEndian(data[36..]) == value
  {
    AddressBytesSpell(to);
    MinimalWord(value);
    SameLayout(selector, AddressBytes(to), Minimal(value), data);
  }

  lemma SameLayout(selector: Selector, first: seq<byte>, second: seq<byte>, data: seq<byte>)
    requires |first| <= WORD && |second| <= WORD
    requires |data| == CALL_DATA_LENGTH && data[..4] == selector
    ensures (Encode(selector, first, second) == data) <==>
      BigEndian(data[4..36]) == BigEndian(first) && BigEndian(data[36..]) == BigEndian(second)
  {
    hide BigEndian, LeftPad;
    EncodeLayout(selector, first, second);
    var again := Encode(selector, first, second);
    assert data == data[..4] + data[4..36] + data[36..];
    assert again == again[..4] + again[4..36] + again[36..];
    if BigEndian(data[4..36]) == BigEndian(first) && BigEndian(data[36..]) == BigEndian(second) {
      BigEndianInjective(again[4..36], data[4..36]);
      BigEndianInjective(again[36..], data[36..]);
    }
  }

  /** Main result: the unwrap parser checks the low 64 bits of the chain id only, and both numbers lose their top byte. */
  lemma UnwrapRoundTrip(selector: Selector, value: nat, chainId: nat)
    ensures ParseUnwrapData(selector, GenerateUnwrapData(selector, value, chainId)) ==
      if value >= TWO_256 || chainId >= TWO_256 then Err(IncorrectLength)
      else if chainId % TWO_64 != 0 then Err(IncorrectChainId)
      else Ok((value % TWO_248, chainId % TWO_248))
  {
    MinimalWord(value);
    MinimalWord(chainId);
    EncodeLayout(selector, Minimal(value), Minimal(chainId));
    if value < TWO_256 && chainId < TWO_256 {
      WordsOf(GenerateUnwrapData(selector, value, chainId));
      LowBits(chainId);
    }
  }

  lemma LowBits(x: nat)
    ensures LowUint64(x % TWO_248) == x % TWO_64
  {
    assert TWO_248 % TWO_64 == 0;
  }

  /** A chain id of 2^64 passes the check that means to allow zero alone. */
  lemma NonZeroChainIdAccepted(selector: Selector, value: nat)
    requires value < TWO_248
    ensures ParseUnwrapData(selector, GenerateUnwrapData(selector, value, TWO_64)) == Ok((value, TWO_64))
  {
    hide ParseUnwrapData, GenerateUnwrapData;
    UnwrapRoundTrip(selector, value, TWO_64);
  }
}
