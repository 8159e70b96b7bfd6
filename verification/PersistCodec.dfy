/** The record of a host's identity that is kept on disk. Base64 is assumed to
    invert; a field that is not base64 at all is None. */
module PersistCodec {
  import opened Wrappers
  import opened Keys

  const VERSION := 1

  datatype Persisted = Persisted(version: int, receiverKey: Option<seq<Byte>>, overlayKey: Option<seq<Byte>>, derpRegion: Word16)

  datatype Flaw = ReceiverZero | OverlayZero | RegionZero
                | BadVersion | NotBase64(overlay: bool) | WrongSize(overlay: bool) | KeyZero(overlay: bool)

  function Encode(s: ReceiveState): Result<Persisted, Flaw> {
    if IsZero(s.receiverPrivate) then Err(ReceiverZero)
    else if IsZero(s.overlayPrivate) then Err(OverlayZero)
    else if s.derpRegion == 0 then Err(RegionZero)
    else Ok(Persisted(VERSION, Some(s.receiverPrivate), Some(s.overlayPrivate), s.derpRegion))
  }

  function DecodeKey(overlay: bool, encoded: Option<seq<Byte>>): Result<Key, Flaw> {
    if encoded.None? then Err(NotBase64(overlay))
    else if |encoded.value| != KEY_SIZE then Err(WrongSize(overlay))
    else if IsZero(encoded.value) then Err(KeyZero(overlay))
    else Ok(encoded.value)
  }

  function Decode(p: Persisted): Result<ReceiveState, Flaw> {
    if p.version != VERSION then Err(BadVersion)
    else
      var receiver := DecodeKey(false, p.receiverKey);
      if receiver.Err? then Err(receiver.error)
      else
        var overlay := DecodeKey(true, p.overlayKey);
        if overlay.Err? then Err(overlay.error)
        else if p.derpRegion == 0 then Err(RegionZero)
        else Ok(ReceiveState(receiver.value, overlay.value, p.derpRegion))
  }

  /** A rejected record has the flaw it is rejected for, and none that is looked
      for earlier: version, receiver key, overlay key, region, in this order. */
  lemma RejectedForFirstFlaw(p: Persisted)
    ensures Decode(p) == Err(BadVersion) <==> p.version != 1
    ensures Decode(p) == Err(NotBase64(false)) <==> p.version == 1 && p.receiverKey.None?
    ensures Decode(p) == Err(WrongSize(false)) <==> p.version == 1 && p.receiverKey.Some? && |p.receiverKey.value| != 32
    ensures Decode(p) == Err(KeyZero(false)) <==>
            p.version == 1 && p.receiverKey.Some? && |p.receiverKey.value| == 32 && p.receiverKey.value == ZeroKey()
    ensures var fine := p.version == 1 && p.receiverKey.Some? && |p.receiverKey.value| == 32 && p.receiverKey.value != ZeroKey();
            && (Decode(p) == Err(NotBase64(true)) <==> fine && p.overlayKey.None?)
            && (Decode(p) == Err(WrongSize(true)) <==> fine && p.overlayKey.Some? && |p.overlayKey.value| != 32)
            && (Decode(p) == Err(KeyZero(true)) <==> fine && p.overlayKey.Some? && |p.overlayKey.value| == 32 && p.overlayKey.value == ZeroKey())
            && (Decode(p) == Err(RegionZero) <==>
                  fine && p.overlayKey.Some? && |p.overlayKey.value| == 32 && p.overlayKey.value != ZeroKey() && p.derpRegion == 0)
  {
    if p.receiverKey.Some? && |p.receiverKey.value| == 32 {
      OnlyZeroKeyIsZero(p.receiverKey.value);
    }
    if p.overlayKey.Some? && |p.overlayKey.value| == 32 {
      OnlyZeroKeyIsZero(p.overlayKey.value);
    }
    hide IsZero;
  }

  /** Exactly the usable identities are saved, and loading accepts exactly what
      saving produces: the two are inverse to each other. */
  lemma CodecInverts(s: ReceiveState, p: Persisted)
    ensures Encode(s).Ok? <==> Usable(s)
    ensures Decode(p) == Ok(s) <==> Encode(s) == Ok(p)
  {
    if Decode(p) == Ok(s) {
      assert p.receiverKey.value == s.receiverPrivate && p.overlayKey.value == s.overlayPrivate;
    }
  }
}
