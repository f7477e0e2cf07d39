/** What the pool's slots hold: pads added in the field, note amounts added modulo 2^128. */
module Crypto {
  import opened Field
  import opened Hashes
  import opened Errors

  /** An incoming channel as stored for its recipient. */
  datatype EncChannelInfo = EncChannelInfo(ephemeral: Felt, encKey: Felt, encSender: Felt)

  datatype ChannelInfo = ChannelInfo(key: Felt, sender: Felt)

  /** A subchannel as stored; salt 0 means there is none. */
  datatype EncSubchannelInfo = EncSubchannelInfo(salt: Felt, encToken: Felt)

  /** One of the sender's own outgoing channels as stored; salt 0 means there is none. */
  datatype EncOutgoingInfo = EncOutgoingInfo(salt: Felt, encRecipient: Felt)

  function SharedX(env: Env, sk: Felt, publicX: Felt): Result<Felt, Error> {
    match env.sharedX(sk, publicX)
    case Some(x) => Ok(x)
    case None => Err(NotOnCurve(publicX))
  }

  function DecryptChannelInfo(env: Env, enc: EncChannelInfo, sk: Felt): Result<ChannelInfo, Error> {
    match SharedX(env, sk, enc.ephemeral)
    case Err(e) => Err(e)
    case Ok(shared) =>
      Ok(ChannelInfo(Sub(enc.encKey, EncChannelKeyHash(env, shared)),
                     Sub(enc.encSender, EncSenderAddrHash(env, shared))))
  }

  /** What the pool stores when `sender` opens a channel to a recipient with public key `pk`. */
  function EncryptChannelInfo(env: Env, info: ChannelInfo, pk: Felt, random: Felt): EncChannelInfo {
    var shared := match env.sharedX(random, pk) case Some(x) => x case None => 0;
    EncChannelInfo(env.publicKey(random),
                   Add(info.key, EncChannelKeyHash(env, shared)),
                   Add(info.sender, EncSenderAddrHash(env, shared)))
  }

  lemma ChannelInfoRoundTrip(env: Env, info: ChannelInfo, sk: Felt, random: Felt)
    requires Sound(env) && env.Scalar(sk) && env.Scalar(random)
    ensures DecryptChannelInfo(env, EncryptChannelInfo(env, info, env.publicKey(sk), random), sk) == Ok(info)
  {
    var shared := env.sharedX(random, env.publicKey(sk));
    assert env.sharedX(sk, env.publicKey(random)) == shared;
    SubUndoesAdd(info.key, EncChannelKeyHash(env, shared.value));
    SubUndoesAdd(info.sender, EncSenderAddrHash(env, shared.value));
  }

  function DecryptSubchannelToken(env: Env, enc: EncSubchannelInfo, key: Felt, index: U32): Felt {
    Sub(enc.encToken, EncTokenHash(env, key, index, enc.salt))
  }

  function EncryptSubchannelToken(env: Env, token: Felt, key: Felt, index: U32, salt: Felt): EncSubchannelInfo {
    EncSubchannelInfo(salt, Add(token, EncTokenHash(env, key, index, salt)))
  }

  lemma SubchannelTokenRoundTrip(env: Env, token: Felt, key: Felt, index: U32, salt: Felt)
    ensures DecryptSubchannelToken(env, EncryptSubchannelToken(env, token, key, index, salt), key, index) == token
  {
    SubUndoesAdd(token, EncTokenHash(env, key, index, salt));
  }

  function DecryptOutgoingRecipient(env: Env, enc: EncOutgoingInfo, s: Account, index: U32): Felt {
    Sub(enc.encRecipient, EncRecipientAddrHash(env, s, index, enc.salt))
  }

  function EncryptOutgoingRecipient(env: Env, recipient: Felt, s: Account, index: U32, salt: Felt): EncOutgoingInfo {
    EncOutgoingInfo(salt, Add(recipient, EncRecipientAddrHash(env, s, index, salt)))
  }

  lemma OutgoingRecipientRoundTrip(env: Env, recipient: Felt, s: Account, index: U32, salt: Felt)
    ensures DecryptOutgoingRecipient(env, EncryptOutgoingRecipient(env, recipient, s, index, salt), s, index)
         == recipient
  {
    SubUndoesAdd(recipient, EncRecipientAddrHash(env, s, index, salt));
  }

  // ---- note values ----

  const OPEN_NOTE_SALT: nat := 1

  datatype NoteValue = NoteValue(amount: U128, salt: U128, open: bool)

  /** The high and low 128 bits. */
  function SplitU128s(value: Felt): (U128, U128) {
    (value / TWO_128, value % TWO_128)
  }

  function Pad(env: Env, key: Felt, token: Felt, index: U32, salt: U128): U128 {
    SplitU128s(EncAmountHash(env, key, token, index, salt)).1
  }

  function WrappingAdd(a: U128, b: U128): U128 {
    (a + b) % TWO_128
  }

  function WrappingSub(a: U128, b: U128): U128 {
    (a - b) % TWO_128
  }

  function DecryptNoteValue(env: Env, packed: Felt, key: Felt, token: Felt, index: U32): Option<NoteValue> {
    if packed == 0 then None
    else
      var (salt, enc) := SplitU128s(packed);
      if salt == OPEN_NOTE_SALT then Some(NoteValue(enc, salt, true))
      else Some(NoteValue(WrappingSub(enc, Pad(env, key, token, index, salt)), salt, false))
  }

  /** The field product and sum the client writes: reduced modulo P. */
  function Pack(salt: U128, low: U128): Felt {
    (salt * TWO_128 + low) % P
  }

  function EncryptNoteValue(env: Env, amount: U128, salt: U128, key: Felt, token: Felt, index: U32): Felt {
    Pack(salt, WrappingAdd(Pad(env, key, token, index, salt), amount))
  }

  /** A note salt as the client draws it: 120 bits, neither 0 nor the open-note mark. */
  predicate NoteSalt(salt: nat) {
    OPEN_NOTE_SALT < salt < TWO_120
  }

  /** No salt below 2^120 makes the packed value reach the prime, so both halves come back. */
  lemma PackSplits(salt: U128, low: U128)
    requires salt < TWO_120
    ensures Pack(salt, low) == salt * TWO_128 + low
    ensures SplitU128s(Pack(salt, low)) == (salt, low)
  {
    assert salt * TWO_128 + low < P;
  }

  lemma WrappingUndo(a: U128, b: U128)
    ensures WrappingSub(WrappingAdd(a, b), a) == b
  {
  }

  lemma NoteValueRoundTrip(env: Env, amount: U128, salt: U128, key: Felt, token: Felt, index: U32)
    requires NoteSalt(salt)
    ensures DecryptNoteValue(env, EncryptNoteValue(env, amount, salt, key, token, index), key, token, index)
         == Some(NoteValue(amount, salt, false))
  {
    var pad := Pad(env, key, token, index, salt);
    PackSplits(salt, WrappingAdd(pad, amount));
    WrappingUndo(pad, amount);
  }

  /** An open note's amount is in the clear. */
  lemma OpenNoteIsPlain(env: Env, amount: U128, key: Felt, token: Felt, index: U32)
    ensures DecryptNoteValue(env, Pack(OPEN_NOTE_SALT, amount), key, token, index)
         == Some(NoteValue(amount, OPEN_NOTE_SALT, true))
  {
    PackSplits(OPEN_NOTE_SALT, amount);
  }

  // ---- what decryption returns, said of the stored value alone ----

  lemma SubIs(x: Felt, pad: Felt)
    ensures (Sub(x, pad) + pad) % P == x
  {
  }

  lemma WrapsBack(enc: U128, hash: Felt)
    ensures (WrappingSub(enc, hash % TWO_128) + hash) % TWO_128 == enc
  {
    var a, q, low := WrappingSub(enc, hash % TWO_128), hash / TWO_128, hash % TWO_128;
    assert hash == q * TWO_128 + low;
    Shifted(a + low, q);
    if enc >= low {
      assert a == enc - low;
    } else {
      assert a == enc - low + TWO_128;
    }
  }

  lemma Shifted(x: nat, q: nat)
    ensures (x + q * TWO_128) % TWO_128 == x % TWO_128
  {
  }

  /** A slot that reads 0 is empty; salt 1 marks an open note with its amount in the clear; any other salt is the
      quotient, and the amount is what the low half of the amount hash has to be added to, modulo 2^128. */
  lemma DecryptedNote(env: Env, packed: Felt, key: Felt, token: Felt, index: U32)
    ensures packed == 0 <==> DecryptNoteValue(env, packed, key, token, index) == None
    ensures packed != 0 ==>
              var v, salt: U128, low := DecryptNoteValue(env, packed, key, token, index).value, packed / TWO_128,
                                        packed % TWO_128;
              && v.salt == salt && (v.open <==> salt == 1)
              && (if v.open then v.amount == low
                  else (v.amount + EncAmountHash(env, key, token, index, salt)) % TWO_128 == low)
  {
    if packed != 0 && packed / TWO_128 != 1 {
      WrapsBack(packed % TWO_128, EncAmountHash(env, key, token, index, packed / TWO_128));
    }
  }

  /** Adding the pads back in the field gives the stored felts. */
  lemma DecryptedChannelInfo(env: Env, enc: EncChannelInfo, sk: Felt)
    ensures DecryptChannelInfo(env, enc, sk).Ok? <==> env.sharedX(sk, enc.ephemeral).Some?
    ensures DecryptChannelInfo(env, enc, sk).Ok? ==>
              var info, shared := DecryptChannelInfo(env, enc, sk).value, env.sharedX(sk, enc.ephemeral).value;
              && (info.key + EncChannelKeyHash(env, shared)) % P == enc.encKey
              && (info.sender + EncSenderAddrHash(env, shared)) % P == enc.encSender
    ensures DecryptChannelInfo(env, enc, sk).Err? ==> DecryptChannelInfo(env, enc, sk) == Err(NotOnCurve(enc.ephemeral))
  {
    var shared := env.sharedX(sk, enc.ephemeral);
    if shared.Some? {
      SubIs(enc.encKey, EncChannelKeyHash(env, shared.value));
      SubIs(enc.encSender, EncSenderAddrHash(env, shared.value));
    }
  }

  lemma DecryptedToken(env: Env, enc: EncSubchannelInfo, key: Felt, index: U32)
    ensures (DecryptSubchannelToken(env, enc, key, index) + EncTokenHash(env, key, index, enc.salt)) % P == enc.encToken
  {
    SubIs(enc.encToken, EncTokenHash(env, key, index, enc.salt));
  }

  lemma DecryptedRecipient(env: Env, enc: EncOutgoingInfo, s: Account, index: U32)
    ensures (DecryptOutgoingRecipient(env, enc, s, index) + EncRecipientAddrHash(env, s, index, enc.salt)) % P
         == enc.encRecipient
  {
    SubIs(enc.encRecipient, EncRecipientAddrHash(env, s, index, enc.salt));
  }
}
