/** The auth key at byte level: 69 bytes holding version, peer type, an unused
    address length, the relay region and two keys. */
module AuthKeys {
  import opened Wrappers
  import opened Keys

  const VERSION_LEGACY: Byte := 1
  const VERSION: Byte := 2
  const TYPE_CLI: Byte := 0
  const TYPE_WEB: Byte := 1

  const AUTH_KEY_SIZE := 5 + 2 * KEY_SIZE

  datatype Auth = Auth(overlayPrivate: Key, receiverPublic: Key, derpRegion: Word16)

  predicate IsValid(a: Auth) {
    a.derpRegion != 0 && !IsZero(a.receiverPublic) && !IsZero(a.overlayPrivate)
  }

  datatype ParseError =
    | Empty
    | UnsupportedVersion(version: Byte)
    | MissingType
    | BrowserKey
    | UnsupportedType(typ: Byte)
    | MissingAddressLength
    | AddressUnsupported
    | ShortRegion
    | RegionMissing
    | ShortPublicKey
    | PublicKeyZero
    | ShortPrivateKey
    | PrivateKeyZero
    | TrailingData

  function BigEndian16(w: Word16): seq<Byte> {
    [w / 256, w % 256]
  }

  function FromBigEndian16(b: seq<Byte>): Word16
    requires |b| == 2
  {
    var high: nat := b[0];
    high * 256 + b[1]
  }

  function Encode(a: Auth): seq<Byte> {
    [VERSION, TYPE_CLI, 0] + BigEndian16(a.derpRegion) + a.receiverPublic + a.overlayPrivate
  }

  /** The fields of a string of full length. */
  function Fields(d: seq<Byte>): Auth
    requires |d| == AUTH_KEY_SIZE
  {
    Auth(d[5 + KEY_SIZE..], d[5..5 + KEY_SIZE], FromBigEndian16(d[3..5]))
  }

  /** The strings an auth key can be. */
  predicate IsAuthKey(d: seq<Byte>) {
    && |d| == AUTH_KEY_SIZE
    && (d[0] == VERSION_LEGACY || d[0] == VERSION)
    && d[1] == TYPE_CLI
    && d[2] == 0
    && IsValid(Fields(d))
  }

  /** What a string is refused for, by position: the first thing wrong with it. */
  function FirstFlaw(d: seq<Byte>): Option<ParseError> {
    if |d| == 0 then Some(Empty)
    else if d[0] != 1 && d[0] != 2 then Some(UnsupportedVersion(d[0]))
    else if |d| == 1 then Some(MissingType)
    else if d[1] == 1 then Some(BrowserKey)
    else if d[1] != 0 then Some(UnsupportedType(d[1]))
    else if |d| == 2 then Some(MissingAddressLength)
    else if d[2] != 0 then Some(AddressUnsupported)
    else if |d| < 5 then Some(ShortRegion)
    else if d[3] == 0 && d[4] == 0 then Some(RegionMissing)
    else if |d| < 37 then Some(ShortPublicKey)
    else if d[5..37] == ZeroKey() then Some(PublicKeyZero)
    else if |d| < 69 then Some(ShortPrivateKey)
    else if d[37..69] == ZeroKey() then Some(PrivateKeyZero)
    else if |d| > 69 then Some(TrailingData)
    else None
  }

  /** The strings nothing is wrong with are the auth keys. */
  lemma FlawlessIffAuthKey(d: seq<Byte>)
    ensures FirstFlaw(d).None? <==> IsAuthKey(d)
    ensures FirstFlaw(d) == Some(TrailingData) <==> |d| > AUTH_KEY_SIZE && IsAuthKey(d[..AUTH_KEY_SIZE])
  {
    if |d| >= AUTH_KEY_SIZE {
      FieldsOfHead(d);
      OnlyZeroKeyIsZero(d[5..37]);
      OnlyZeroKeyIsZero(d[37..69]);
      hide Fields, IsZero;
    }
  }

  /** The bytes of an encoded auth. */
  lemma WireLayout(a: Auth)
    ensures var d := Encode(a);
            && |d| == 69 && d[0] == 2 && d[1] == 0 && d[2] == 0
            && (d[3] as int) * 256 + d[4] == a.derpRegion
            && d[5..37] == a.receiverPublic && d[37..69] == a.overlayPrivate
  {
  }

  /** Where the fields of a long enough string are. */
  lemma FieldsOfHead(d: seq<Byte>)
    requires |d| >= AUTH_KEY_SIZE
    ensures Fields(d[..AUTH_KEY_SIZE]) ==
            Auth(d[5 + KEY_SIZE..AUTH_KEY_SIZE], d[5..5 + KEY_SIZE], FromBigEndian16(d[3..5]))
    ensures |d| == AUTH_KEY_SIZE ==> d[..AUTH_KEY_SIZE] == d
  {
    var head := d[..AUTH_KEY_SIZE];
    assert head[3..5] == d[3..5];
    assert head[5..5 + KEY_SIZE] == d[5..5 + KEY_SIZE];
    assert head[5 + KEY_SIZE..] == d[5 + KEY_SIZE..AUTH_KEY_SIZE];
  }

  /** Bytes read from left to right. */
  class Reader {
    const data: seq<Byte>
    var pos: nat

    ghost predicate Valid()
      reads this
    {
      pos <= |data|
    }

    constructor (data: seq<Byte>)
      ensures Valid() && this.data == data && pos == 0
    {
      this.data, pos := data, 0;
    }

    function Left(): nat
      requires Valid()
      reads this
    {
      |data| - pos
    }

    method ReadByte() returns (b: Option<Byte>)
      requires Valid()
      modifies this
      ensures Valid()
      ensures b.None? <==> old(pos) == |data|
      ensures b.None? ==> pos == old(pos)
      ensures b.Some? ==> pos == old(pos) + 1 && b.value == data[old(pos)]
    {
      if pos == |data| {
        return None;
      }
      b := Some(data[pos]);
      pos := pos + 1;
    }

    /** Reads up to `n` bytes; fewer only at the end. */
    method Read(n: nat) returns (got: seq<Byte>)
      requires Valid()
      modifies this
      ensures Valid()
      ensures pos == if n <= |data| - old(pos) then old(pos) + n else |data|
      ensures got == data[old(pos)..pos]
    {
      var end := if n <= Left() then pos + n else |data|;
      got := data[pos..end];
      pos := end;
    }
  }

  class ClientAuth {
    var overlayPrivate: Key
    var receiverPublic: Key
    var derpRegion: Word16

    constructor (a: Auth)
      ensures View() == a
    {
      overlayPrivate, receiverPublic, derpRegion := a.overlayPrivate, a.receiverPublic, a.derpRegion;
    }

    function View(): Auth
      reads this
    {
      Auth(overlayPrivate, receiverPublic, derpRegion)
    }

    method AuthKey() returns (buf: seq<Byte>)
      ensures buf == Encode(View())
    {
      buf := [];
      buf := buf + [VERSION];
      buf := buf + [TYPE_CLI];
      buf := buf + [0];
      buf := buf + [derpRegion / 256, derpRegion % 256];
      buf := buf + receiverPublic;
      buf := buf + overlayPrivate;
    }

    /** Accepts exactly the auth keys, and takes over their fields. A failed parse
        leaves the receiver as it was. */
    method Parse(decoded: seq<Byte>) returns (r: Option<ParseError>)
      modifies this
      ensures r.None? <==> IsAuthKey(decoded)
      ensures View() == if IsAuthKey(decoded) then Fields(decoded) else old(View())
      ensures r == FirstFlaw(decoded)
      ensures r == Some(TrailingData) <==> |decoded| > AUTH_KEY_SIZE && IsAuthKey(decoded[..AUTH_KEY_SIZE])
    {
      FlawlessIffAuthKey(decoded);
      if |decoded| >= 37 {
        OnlyZeroKeyIsZero(decoded[5..37]);
      }
      if |decoded| >= 69 {
        OnlyZeroKeyIsZero(decoded[37..69]);
      }
      if |decoded| == 0 {
        return Some(Empty);
      }
      if |decoded| >= AUTH_KEY_SIZE {
        FieldsOfHead(decoded);
      }
      hide Fields, FromBigEndian16, IsZero;
      var reader := new Reader(decoded);
      var ver := reader.ReadByte();
      if ver.value != VERSION_LEGACY && ver.value != VERSION {
        return Some(UnsupportedVersion(ver.value));
      }
      var typ := reader.ReadByte();
      if typ.None? {
        return Some(MissingType);
      }
      if typ.value != TYPE_CLI {
        if typ.value == TYPE_WEB {
          return Some(BrowserKey);
        }
        return Some(UnsupportedType(typ.value));
      }
      var ipLen := reader.ReadByte();
      if ipLen.None? {
        return Some(MissingAddressLength);
      }
      if ipLen.value > 0 {
        return Some(AddressUnsupported);
      }
      var region := reader.Read(2);
      if |region| != 2 {
        return Some(ShortRegion);
      }
      var parsedRegion := FromBigEndian16(region);
      if parsedRegion == 0 {
        return Some(RegionMissing);
      }
      var pub := reader.Read(KEY_SIZE);
      if |pub| != KEY_SIZE {
        return Some(ShortPublicKey);
      }
      if IsZero(pub) {
        return Some(PublicKeyZero);
      }
      var priv := reader.Read(KEY_SIZE);
      if |priv| != KEY_SIZE {
        return Some(ShortPrivateKey);
      }
      if IsZero(priv) {
        return Some(PrivateKeyZero);
      }
      if reader.Left() != 0 {
        return Some(TrailingData);
      }
      overlayPrivate, receiverPublic, derpRegion := priv, pub, parsedRegion;
      return None;
    }
  }

  lemma BigEndianInverts(w: Word16, b: seq<Byte>)
    ensures FromBigEndian16(BigEndian16(w)) == w
    ensures |b| == 2 ==> BigEndian16(FromBigEndian16(b)) == b
  {
  }

  /** Parsing inverts encoding, on exactly the valid auths. */
  lemma ParseInvertsAuthKey(a: Auth)
    ensures |Encode(a)| == AUTH_KEY_SIZE && Fields(Encode(a)) == a
    ensures IsAuthKey(Encode(a)) <==> IsValid(a)
  {
    var d := Encode(a);
    assert d[3..5] == BigEndian16(a.derpRegion);
    assert d[5..5 + KEY_SIZE] == a.receiverPublic && d[5 + KEY_SIZE..] == a.overlayPrivate;
    BigEndianInverts(a.derpRegion, []);
  }

  /** Encoding what was parsed changes nothing but the version byte. */
  lemma ReencodingNormalisesVersion(d: seq<Byte>)
    requires IsAuthKey(d)
    ensures Encode(Fields(d)) == d[0 := VERSION]
  {
    BigEndianInverts(0, d[3..5]);
    var e := Encode(Fields(d));
    assert d == d[..3] + d[3..5] + d[5..5 + KEY_SIZE] + d[5 + KEY_SIZE..];
    assert e == [VERSION, TYPE_CLI, 0] + d[3..5] + d[5..5 + KEY_SIZE] + d[5 + KEY_SIZE..];
  }

  /** Two auth keys mean the same exactly if they agree after the version byte. */
  lemma SameMeaning(d: seq<Byte>, e: seq<Byte>)
    requires IsAuthKey(d) && IsAuthKey(e)
    ensures Fields(d) == Fields(e) <==> d[1..] == e[1..]
  {
    ReencodingNormalisesVersion(d);
    ReencodingNormalisesVersion(e);
    assert d[0 := VERSION] == [VERSION] + d[1..] && e[0 := VERSION] == [VERSION] + e[1..];
    if Fields(d) == Fields(e) {
      assert d[1..] == ([VERSION] + d[1..])[1..] == ([VERSION] + e[1..])[1..] == e[1..];
    }
    if d[1..] == e[1..] {
      ParseInvertsAuthKey(Fields(d));
      ParseInvertsAuthKey(Fields(e));
    }
  }

  /** No proper prefix and no proper extension of an auth key is one. */
  lemma NoPrefixNoExtension(d: seq<Byte>, e: seq<Byte>)
    requires IsAuthKey(d) && (e < d || d < e)
    ensures !IsAuthKey(e)
  {
  }
}
