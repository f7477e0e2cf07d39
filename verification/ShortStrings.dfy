/** Domain tags as Cairo short strings, and the Poseidon inputs they prefix. */
module ShortStrings {
  import opened Field

  datatype Tag =
    | ChannelMarkerTag
    | ChannelKeyTag
    | SubchannelMarkerTag
    | SubchannelIdTag
    | NullifierTag
    | EncChannelKeyTag
    | EncSenderAddrTag
    | NoteIdTag
    | EncAmountTag
    | EncTokenTag
    | EncPrivateKeyTag
    | EncUserAddrTag
    | EncRecipientAddrTag
    | OutgoingChannelIdTag
    | IdentityKeyTag

  function TagBase(tag: Tag): string {
    match tag
    case ChannelMarkerTag => "CHANNEL_MARKER"
    case ChannelKeyTag => "CHANNEL_KEY"
    case SubchannelMarkerTag => "SUBCHANNEL_MARKER"
    case SubchannelIdTag => "SUBCHANNEL_ID"
    case NullifierTag => "NULLIFIER"
    case EncChannelKeyTag => "ENC_CHANNEL_KEY"
    case EncSenderAddrTag => "ENC_SENDER_ADDR"
    case NoteIdTag => "NOTE_ID"
    case EncAmountTag => "ENC_AMOUNT"
    case EncTokenTag => "ENC_TOKEN"
    case EncPrivateKeyTag => "ENC_PRIVATE_KEY"
    case EncUserAddrTag => "ENC_USER_ADDR"
    case EncRecipientAddrTag => "ENC_RECIPIENT_ADDR"
    case OutgoingChannelIdTag => "OUTGOING_CHANNEL_ID"
    case IdentityKeyTag => "IDENTITY_KEY"
  }

  function TagName(tag: Tag): string {
    TagBase(tag) + "_TAG:V1"
  }

  /** At most 31 ASCII characters. */
  predicate ShortEnough(s: string) {
    |s| <= 31 && forall i :: 0 <= i < |s| ==> s[i] as int < 128
  }

  /** Whether the tag is for a pad rather than a key or an address. */
  predicate PadTag(tag: Tag) {
    tag.EncChannelKeyTag? || tag.EncSenderAddrTag? || tag.EncAmountTag? || tag.EncTokenTag?
    || tag.EncPrivateKeyTag? || tag.EncUserAddrTag? || tag.EncRecipientAddrTag?
  }

  lemma PadTagShort(tag: Tag)
    requires PadTag(tag)
    ensures ShortEnough(TagBase(tag))
  {
  }

  lemma SlotTagShort(tag: Tag)
    requires !PadTag(tag)
    ensures ShortEnough(TagBase(tag))
  {
  }

  lemma TagShort(tag: Tag)
    ensures ShortEnough(TagName(tag)) && TagName(tag)[0] != '\0'
  {
    if PadTag(tag) { PadTagShort(tag); } else { SlotTagShort(tag); }
    assert |TagBase(tag)| <= 22;
  }

  /** The characters read as a big-endian base-256 number. */
  function BigEndian(s: string): nat
    requires forall i :: 0 <= i < |s| ==> s[i] as int < 128
  {
    if s == [] then 0 else 256 * BigEndian(s[..|s| - 1]) + s[|s| - 1] as int
  }

  function Pow256(n: nat): nat {
    if n == 0 then 1 else 256 * Pow256(n - 1)
  }

  lemma {:induction false} BigEndianBound(s: string)
    requires forall i :: 0 <= i < |s| ==> s[i] as int < 128
    ensures BigEndian(s) < Pow256(|s|)
  {
    if s != [] {
      BigEndianBound(s[..|s| - 1]);
    }
  }

  lemma {:induction false} Pow256Grows(m: nat, n: nat)
    requires m <= n
    ensures Pow256(m) <= Pow256(n)
    decreases n
  {
    if m < n {
      Pow256Grows(m, n - 1);
    }
  }

  lemma ShortStringFits(s: string)
    requires ShortEnough(s)
    ensures BigEndian(s) < P
  {
    BigEndianBound(s);
    Pow256Grows(|s|, 31);
    assert Pow256(8) == 0x1_0000_0000_0000_0000;
    assert Pow256(16) == 0x1_0000_0000_0000_0000_0000_0000_0000_0000;
    assert Pow256(24) == 0x1_0000_0000_0000_0000_0000_0000_0000_0000_0000_0000_0000_0000;
    assert Pow256(31) == 0x1_0000_0000_0000_0000_0000_0000_0000_0000_0000_0000_0000_0000_0000_0000_0000_00;
  }

  /** A Cairo short string as a felt. */
  function ShortString(s: string): Felt
    requires ShortEnough(s)
  {
    ShortStringFits(s);
    BigEndian(s)
  }

  /** The string without its leading NUL characters. */
  function StripNul(s: string): (r: string)
    ensures |r| <= |s| && r == s[|s| - |r|..]
    ensures r == [] || r[0] != '\0'
  {
    if s != [] && s[0] == '\0' then StripNul(s[1..]) else s
  }

  lemma {:induction false} LeadingNulIsIgnored(s: string)
    requires s != [] && s[0] == '\0'
    requires forall i :: 0 <= i < |s| ==> s[i] as int < 128
    ensures BigEndian(s) == BigEndian(s[1..])
  {
    if |s| > 1 {
      LeadingNulIsIgnored(s[..|s| - 1]);
      assert s[..|s| - 1][1..] == s[1..][..|s| - 2];
    }
  }

  lemma {:induction false} StripKeepsValue(s: string)
    requires forall i :: 0 <= i < |s| ==> s[i] as int < 128
    ensures BigEndian(StripNul(s)) == BigEndian(s)
  {
    if s != [] && s[0] == '\0' {
      LeadingNulIsIgnored(s);
      StripKeepsValue(s[1..]);
    }
  }

  lemma {:induction false} NonzeroValue(s: string)
    requires s != [] && s[0] != '\0'
    requires forall i :: 0 <= i < |s| ==> s[i] as int < 128
    ensures BigEndian(s) > 0
  {
    if |s| > 1 {
      NonzeroValue(s[..|s| - 1]);
    }
  }

  lemma LastDigit(x: nat, c: nat, y: nat, d: nat)
    requires c < 256 && d < 256 && 256 * x + c == 256 * y + d
    ensures x == y && c == d
  {
  }

  lemma {:induction false} StrippedInjective(a: string, b: string)
    requires forall i :: 0 <= i < |a| ==> a[i] as int < 128
    requires forall i :: 0 <= i < |b| ==> b[i] as int < 128
    requires a == [] || a[0] != '\0'
    requires b == [] || b[0] != '\0'
    requires BigEndian(a) == BigEndian(b)
    ensures a == b
  {
    if a == [] {
      if b != [] { NonzeroValue(b); }
    } else if b == [] {
      NonzeroValue(a);
    } else {
      var a', b' := a[..|a| - 1], b[..|b| - 1];
      LastDigit(BigEndian(a'), a[|a| - 1] as int, BigEndian(b'), b[|b| - 1] as int);
      StrippedInjective(a', b');
      assert a == a' + [a[|a| - 1]] && b == b' + [b[|b| - 1]];
    }
  }

  /** Two short strings are the same felt exactly when they differ only in leading NULs. */
  lemma ShortStringClash(a: string, b: string)
    requires ShortEnough(a) && ShortEnough(b)
    ensures ShortString(a) == ShortString(b) <==> StripNul(a) == StripNul(b)
  {
    StripKeepsValue(a);
    StripKeepsValue(b);
    if ShortString(a) == ShortString(b) {
      StrippedInjective(StripNul(a), StripNul(b));
    }
  }

  lemma TagNamesDistinct(a: Tag, b: Tag)
    requires TagName(a) == TagName(b)
    ensures a == b
  {
    assert |TagBase(a)| == |TagBase(b)|;
    assert TagBase(a)[0] == TagName(a)[0] == TagName(b)[0] == TagBase(b)[0];
    assert TagBase(a)[4] == TagName(a)[4] == TagName(b)[4] == TagBase(b)[4];
  }

  function HashInput(tag: Tag, inputs: seq<Felt>): seq<Felt> {
    TagShort(tag);
    [ShortString(TagName(tag))] + inputs
  }

  /** Different tags or different inputs make different Poseidon inputs. */
  lemma HashInputInjective(t: Tag, x: seq<Felt>, u: Tag, y: seq<Felt>)
    requires HashInput(t, x) == HashInput(u, y)
    ensures t == u && x == y
  {
    assert HashInput(t, x)[0] == HashInput(u, y)[0];
    TagShort(t);
    TagShort(u);
    ShortStringClash(TagName(t), TagName(u));
    TagNamesDistinct(t, u);
    assert x == HashInput(t, x)[1..] == HashInput(u, y)[1..] == y;
  }

  /** The tagged hash a Poseidon function gives. */
  function Tagged(poseidon: seq<Felt> -> Felt): (Tag, seq<Felt>) -> Felt {
    (t: Tag, x: seq<Felt>) => poseidon(HashInput(t, x))
  }

  /** If Poseidon does not collide on the inputs made from `used`, the tagged hash does not collide on
      `used` itself: tags and arguments are never confused with one another. */
  lemma TaggedUncollided(poseidon: seq<Felt> -> Felt, used: set<(Tag, seq<Felt>)>, c: (Tag, seq<Felt>),
                         d: (Tag, seq<Felt>))
    requires forall x, y :: x in used && y in used ==>
               poseidon(HashInput(x.0, x.1)) == poseidon(HashInput(y.0, y.1)) ==>
               HashInput(x.0, x.1) == HashInput(y.0, y.1)
    requires c in used && d in used && Tagged(poseidon)(c.0, c.1) == Tagged(poseidon)(d.0, d.1)
    ensures c == d
  {
    HashInputInjective(c.0, c.1, d.0, d.1);
  }
}
