/** Raw bytes and 32-byte keys. */
module Keys {
  type Byte = b: nat | b < 256
  type Word16 = w: nat | w < 0x1_0000

  const KEY_SIZE := 32

  type Key = k: seq<Byte> | |k| == KEY_SIZE witness seq(KEY_SIZE, _ => 0)

  function ZeroKey(): Key {
    seq(KEY_SIZE, _ => 0)
  }

  predicate IsZero(k: seq<Byte>) {
    forall i :: 0 <= i < |k| ==> k[i] == 0
  }

  lemma OnlyZeroKeyIsZero(k: Key)
    ensures IsZero(k) <==> k == ZeroKey()
  {
  }

  /** The identity of a host: what its auth key is made from. */
  datatype ReceiveState = ReceiveState(receiverPrivate: Key, overlayPrivate: Key, derpRegion: Word16)

  predicate Usable(s: ReceiveState) {
    !IsZero(s.receiverPrivate) && !IsZero(s.overlayPrivate) && s.derpRegion != 0
  }
}
