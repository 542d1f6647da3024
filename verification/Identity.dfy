/**
 * The length-prefixed field encoding behind delivery identities (internal/publichook/handler.go) and target
 * fingerprints (internal/runtimecfg/generation.go, ssh.go). The hash itself is a parameter.
 */
module Identity {
  import opened Domain

  newtype Byte = b: int | 0 <= b < 256

  type Bytes = seq<Byte>

  function Power(n: nat): (p: nat)
    ensures p > 0
  {
    if n == 0 then 1 else 256 * Power(n - 1)
  }

  const TWO_64: nat := 0x1_0000_0000_0000_0000

  // ----- Eight-byte lengths -----

  /** The width low-order bytes of n, most significant first. */
  function BigEndian(n: nat, width: nat): (r: Bytes)
    ensures |r| == width
  {
    if width == 0 then [] else BigEndian(n / 256, width - 1) + [(n % 256) as Byte]
  }

  function Number(bs: Bytes): nat {
    if bs == [] then 0 else 256 * Number(bs[..|bs| - 1]) + bs[|bs| - 1] as nat
  }

  lemma {:induction false} NumberOfBigEndian(n: nat, width: nat)
    requires n < Power(width)
    ensures Number(BigEndian(n, width)) == n
  {
    if width > 0 {
      NumberOfBigEndian(n / 256, width - 1);
      var r := BigEndian(n, width);
      assert r[..width - 1] == BigEndian(n / 256, width - 1);
    }
  }

  lemma {:induction false} BigEndianOfNumber(bs: Bytes)
    ensures Number(bs) < Power(|bs|) && BigEndian(Number(bs), |bs|) == bs
  {
    if bs != [] {
      var front := bs[..|bs| - 1];
      BigEndianOfNumber(front);
      assert Number(bs) / 256 == Number(front) && Number(bs) % 256 == bs[|bs| - 1] as nat;
      assert bs == front + [bs[|bs| - 1]];
    }
  }

  /** The digits of a length, the most significant first. */
  lemma {:induction false} DigitsOf(n: nat, width: nat, i: nat)
    requires i < width
    ensures BigEndian(n, width)[i] as nat == (n / Power(width - 1 - i)) % 256
    decreases width
  {
    if i < width - 1 {
      DigitsOf(n / 256, width - 1, i);
      QuotientTwice(n, Power(width - 2 - i));
    }
  }

  lemma QuotientTwice(n: nat, p: nat)
    requires p > 0
    ensures (n / 256) / p == n / (256 * p)
  {
    var k, rest := n / 256, n % 256;
    var q, r := k / p, k % p;
    assert k == p * q + r;
    Regroup(n, k, rest, q, r, p);
    Quotient(n, q, 256 * r + rest, 256 * p);
  }

  lemma Regroup(n: nat, k: nat, rest: nat, q: nat, r: nat, p: nat)
    requires n == 256 * k + rest && rest < 256 && k == p * q + r && r < p
    ensures n == (256 * p) * q + (256 * r + rest) && 256 * r + rest < 256 * p
  {
    assert (256 * p) * q == 256 * (p * q);
  }

  lemma Multiples(d: int, p: int)
    requires p >= 0
    ensures d >= 1 ==> p * d >= p
    ensures d <= -1 ==> p * d <= -p
  {
    if d >= 1 {
      assert p * d == p + p * (d - 1);
    } else if d <= -1 {
      assert p * d == -p - p * (-d - 1);
    }
  }

  lemma Quotient(m: nat, q: nat, r: nat, p: nat)
    requires p > 0 && r < p && m == p * q + r
    ensures m / p == q
  {
    var k, rest := m / p, m % p;
    assert m == p * k + rest;
    assert p * (k - q) == r - rest;
    Multiples(k - q, p);
  }

  lemma EightBytes()
    ensures Power(8) == TWO_64
  {
    assert Power(4) == 256 * (256 * (256 * 256)) by { assert Power(1) == 256; assert Power(2) == 65536; assert Power(3) == 16777216; }
    assert Power(5) == 256 * Power(4) && Power(6) == 256 * Power(5) && Power(7) == 256 * Power(6) && Power(8) == 256 * Power(7);
  }

  // ----- Field lists -----

  /** uint64(len(value)) wraps around. */
  function LengthPrefix(f: Bytes): Bytes { BigEndian(|f| % TWO_64, 8) }

  /** Everything written to the hash for a list of fields. */
  function Encode(fs: seq<Bytes>): Bytes {
    if fs == [] then [] else LengthPrefix(fs[0]) + fs[0] + Encode(fs[1..])
  }

  function Decode(s: Bytes): Option<seq<Bytes>>
    decreases |s|
  {
    if s == [] then Some([])
    else if |s| < 8 || |s| - 8 < Number(s[..8]) then None
    else
      var n := Number(s[..8]);
      var rest := Decode(s[8 + n..]);
      if rest.None? then None else Some([s[8..8 + n]] + rest.value)
  }

  predicate Short(f: Bytes) { |f| < TWO_64 }

  predicate AllShort(fs: seq<Bytes>) { forall i | 0 <= i < |fs| :: Short(fs[i]) }

  /** A prefix says how long its field is, and nothing else does. */
  lemma PrefixTells(f: Bytes)
    requires Short(f)
    ensures |LengthPrefix(f)| == 8 && Number(LengthPrefix(f)) == |f|
  {
    SmallRemainder(|f|);
    NumberOfEight(|f|);
  }

  lemma SmallRemainder(n: nat)
    requires n < TWO_64
    ensures n % TWO_64 == n
  {
  }

  lemma NumberOfEight(n: nat)
    requires n < TWO_64
    ensures Number(BigEndian(n, 8)) == n
  {
    EightBytes();
    NumberOfBigEndian(n, 8);
  }

  lemma PrefixIsDetermined(p: Bytes, f: Bytes)
    requires |p| == 8 && |f| == Number(p)
    ensures LengthPrefix(f) == p && Short(f)
  {
    EightBytes();
    BigEndianOfNumber(p);
    SmallRemainder(|f|);
  }

  lemma Slices(p: Bytes, f: Bytes, rest: Bytes)
    requires |p| == 8
    ensures var s := p + f + rest; s[..8] == p && s[8..8 + |f|] == f && s[8 + |f|..] == rest
  {
  }

  lemma DecodeStep(f: Bytes, rest: Bytes)
    requires Short(f)
    ensures Decode(LengthPrefix(f) + f + rest) == if Decode(rest).None? then None else Some([f] + Decode(rest).value)
  {
    PrefixTells(f);
    Slices(LengthPrefix(f), f, rest);
  }

  /** The prefix of a field is the eight digits of its length. */
  lemma PrefixDigits(f: Bytes)
    requires Short(f)
    ensures forall i: nat | i < 8 :: LengthPrefix(f)[i] as nat == (|f| / Power(7 - i)) % 256
  {
    SmallRemainder(|f|);
    forall i: nat | i < 8 ensures LengthPrefix(f)[i] as nat == (|f| / Power(7 - i)) % 256 {
      DigitsOf(|f|, 8, i);
    }
  }

  /** A stream is a prefix of eight bytes, the first field, and the stream of the rest. */
  lemma Layout(fs: seq<Bytes>)
    requires fs != []
    ensures var s, n := Encode(fs), |fs[0]|;
            |s| >= 8 + n && s[..8] == LengthPrefix(fs[0]) && s[8..8 + n] == fs[0] && s[8 + n..] == Encode(fs[1..])
  {
    Slices(LengthPrefix(fs[0]), fs[0], Encode(fs[1..]));
  }

  /** The stream is uniquely decodable, whatever the number of fields. */
  lemma {:induction false} DecodeEncode(fs: seq<Bytes>)
    requires AllShort(fs)
    ensures Decode(Encode(fs)) == Some(fs)
  {
    if fs != [] {
      assert Short(fs[0]);
      DecodeEncode(fs[1..]);
      DecodeStep(fs[0], Encode(fs[1..]));
      assert fs == [fs[0]] + fs[1..];
    }
  }

  lemma EncodeCons(f: Bytes, fs: seq<Bytes>)
    ensures Encode([f] + fs) == LengthPrefix(f) + f + Encode(fs)
    ensures Short(f) && AllShort(fs) ==> AllShort([f] + fs)
  {
    assert ([f] + fs)[0] == f && ([f] + fs)[1..] == fs;
  }

  /** Nothing else decodes: a decodable stream is the encoding of what it decodes to. */
  lemma {:induction false} EncodeDecode(s: Bytes)
    requires Decode(s).Some?
    ensures Encode(Decode(s).value) == s && AllShort(Decode(s).value)
    decreases |s|
  {
    if s != [] {
      var n := Number(s[..8]);
      var f, tail := s[8..8 + n], s[8 + n..];
      EncodeDecode(tail);
      PrefixIsDetermined(s[..8], f);
      EncodeCons(f, Decode(tail).value);
      assert s == s[..8] + f + tail;
    }
  }

  /** Equal streams mean equal field lists. */
  lemma EncodingIsInjective(fs: seq<Bytes>, gs: seq<Bytes>)
    requires AllShort(fs) && AllShort(gs) && Encode(fs) == Encode(gs)
    ensures fs == gs
  {
    DecodeEncode(fs);
    DecodeEncode(gs);
  }

  lemma {:induction false} EncodeSnoc(fs: seq<Bytes>, f: Bytes)
    ensures Encode(fs + [f]) == Encode(fs) + LengthPrefix(f) + f
  {
    if fs == [] {
      assert [] + [f] == [f] && [f][1..] == [];
      assert Encode([f]) == LengthPrefix(f) + f + [];
    } else {
      assert (fs + [f])[1..] == fs[1..] + [f];
      EncodeSnoc(fs[1..], f);
    }
  }

  /** bindingFingerprintFields: the loop that feeds the hash. */
  method WriteFields(fields: seq<Bytes>) returns (written: Bytes)
    ensures written == Encode(fields)
  {
    written := [];
    for i := 0 to |fields|
      invariant written == Encode(fields[..i])
    {
      EncodeSnoc(fields[..i], fields[i]);
      assert fields[..i + 1] == fields[..i] + [fields[i]];
      written := written + BigEndian(|fields[i]| % TWO_64, 8);
      written := written + fields[i];
    }
    assert fields[..|fields|] == fields;
  }

  // ----- Delivery identities -----

  /** What a webhook is identified by: the provider's delivery id, or everything known about it. */
  datatype Hook = Hook(provider: Bytes, source: Bytes, deliveryId: Bytes, components: seq<Bytes>, body: Bytes)

  const DELIVERY: Bytes := [100, 101, 108, 105, 118, 101, 114, 121]
  const FALLBACK: Bytes := [102, 97, 108, 108, 98, 97, 99, 107]

  function IdentityFields(h: Hook): seq<Bytes> {
    if h.deliveryId != [] then [h.provider, h.source, DELIVERY, h.deliveryId]
    else [h.provider, h.source, FALLBACK] + h.components + [h.body]
  }

  /** The bytes of a text in ASCII. */
  function Ascii(s: string): (r: Bytes)
    requires forall i | 0 <= i < |s| :: s[i] < 128 as char
  {
    seq(|s|, i requires 0 <= i < |s| => s[i] as int as Byte)
  }

  /** The tags by which the forms of an identity and the kinds of an endpoint are told apart. */
  lemma Tags()
    ensures DELIVERY == Ascii("delivery") && FALLBACK == Ascii("fallback")
    ensures DOKPLOY == Ascii("dokploy") && HTTP == Ascii("http") && FORWARD == Ascii("forward") && SSH == Ascii("ssh")
  {
  }

  /** deliveryIdentity up to the hash. */
  method DeliveryIdentity(h: Hook) returns (written: Bytes)
    ensures written == Encode(IdentityFields(h))
    ensures h.deliveryId != [] ==> written == Encode([h.provider, h.source, Ascii("delivery"), h.deliveryId])
    ensures h.deliveryId == [] ==> written == Encode([h.provider, h.source, Ascii("fallback")] + h.components + [h.body])
  {
    Tags();
    var fields := [h.provider, h.source];
    if h.deliveryId != [] {
      fields := fields + [DELIVERY, h.deliveryId];
    } else {
      fields := fields + [FALLBACK];
      for i := 0 to |h.components|
        invariant fields == [h.provider, h.source, FALLBACK] + h.components[..i]
      {
        fields := fields + [h.components[i]];
      }
      fields := fields + [h.body];
      assert h.components[..|h.components|] == h.components;
    }
    written := WriteFields(fields);
  }

  /** The seven components every fallback identity lists. */
  const COMPONENTS := 7

  predicate HookOk(h: Hook) { |h.components| == COMPONENTS && AllShort(IdentityFields(h)) }

  /**
   * Two webhooks feed the hash the same bytes only if they agree on provider, source and either a delivery id
   * both carry, or, when neither carries one, on every component and the body.
   */
  lemma IdentitiesAreInjective(g: Hook, h: Hook)
    requires HookOk(g) && HookOk(h)
    ensures Encode(IdentityFields(g)) == Encode(IdentityFields(h)) <==>
            && g.provider == h.provider && g.source == h.source && g.deliveryId == h.deliveryId
            && (g.deliveryId == [] ==> g.components == h.components && g.body == h.body)
  {
    if Encode(IdentityFields(g)) == Encode(IdentityFields(h)) {
      EncodingIsInjective(IdentityFields(g), IdentityFields(h));
      var x, y := IdentityFields(g), IdentityFields(h);
      assert x[0] == y[0] && x[1] == y[1] && x[2] == y[2];
      assert DELIVERY[0] != FALLBACK[0];
      if g.deliveryId == [] {
        assert x[3..10] == g.components && y[3..10] == h.components && x[10] == g.body && y[10] == h.body;
      } else {
        assert x[3] == g.deliveryId && y[3] == h.deliveryId;
      }
    }
  }

  // ----- Target fingerprints -----

  datatype Endpoint =
    | Dokploy(resourceType: Bytes, baseUrl: Bytes, resourceId: Bytes)
    | Http(connection: Bytes, baseUrl: Bytes, request: Bytes)
    | Forward(target: Bytes)

  const DOKPLOY: Bytes := [100, 111, 107, 112, 108, 111, 121]
  const HTTP: Bytes := [104, 116, 116, 112]
  const FORWARD: Bytes := [102, 111, 114, 119, 97, 114, 100]
  const SSH: Bytes := [115, 115, 104]
  const ONE: Bytes := [49]

  function EndpointFields(version: Bytes, e: Endpoint): seq<Bytes> {
    match e
    case Dokploy(t, url, id) => [version, DOKPLOY, t, url, id]
    case Http(c, url, req) => [version, HTTP, c, url, req]
    case Forward(t) => [version, FORWARD, t]
  }

  /** The fingerprint under hash h; a tunnel wraps the fingerprint of what is behind it. */
  function Fingerprint(h: Bytes -> Bytes, version: Bytes, e: Endpoint, tunnel: Option<Bytes>): Bytes {
    var base := h(Encode(EndpointFields(version, e)));
    if tunnel.None? then base else h(Encode([ONE, SSH, base, tunnel.value, []]))
  }

  /** What is hashed last for a fingerprint. */
  function Preimage(h: Bytes -> Bytes, version: Bytes, e: Endpoint, tunnel: Option<Bytes>): seq<Bytes> {
    if tunnel.None? then EndpointFields(version, e) else [ONE, SSH, h(Encode(EndpointFields(version, e))), tunnel.value, []]
  }

  /** h does not collide on two given streams. */
  predicate Apart(h: Bytes -> Bytes, x: Bytes, y: Bytes) { h(x) == h(y) ==> x == y }

  lemma EndpointFieldsAreInjective(version: Bytes, e: Endpoint, f: Endpoint)
    requires EndpointFields(version, e) == EndpointFields(version, f)
    ensures e == f
  {
    var x, y := EndpointFields(version, e), EndpointFields(version, f);
    assert x[1] == y[1] && x[2] == y[2] && DOKPLOY[0] != FORWARD[0] && DOKPLOY[0] != HTTP[0] && HTTP[0] != FORWARD[0];
    if !e.Forward? { assert x[3] == y[3] && x[4] == y[4]; }
  }

  /**
   * As long as the hash does not collide on the streams involved, a fingerprint identifies the endpoint
   * together with the tunnel: the same endpoint through another tunnel, or through none, has another one.
   */
  lemma FingerprintsIdentifyBindings(h: Bytes -> Bytes, version: Bytes, e: Endpoint, t: Option<Bytes>, f: Endpoint, u: Option<Bytes>)
    requires AllShort(EndpointFields(version, e)) && AllShort(EndpointFields(version, f))
    requires AllShort(Preimage(h, version, e, t)) && AllShort(Preimage(h, version, f, u))
    requires Apart(h, Encode(EndpointFields(version, e)), Encode(EndpointFields(version, f)))
    requires Apart(h, Encode(Preimage(h, version, e, t)), Encode(Preimage(h, version, f, u)))
    ensures Fingerprint(h, version, e, t) == Fingerprint(h, version, f, u) <==> e == f && t == u
  {
    if Fingerprint(h, version, e, t) == Fingerprint(h, version, f, u) {
      var x, y := Preimage(h, version, e, t), Preimage(h, version, f, u);
      EncodingIsInjective(x, y);
      assert x[1] == y[1] && SSH[0] != DOKPLOY[0] && SSH[0] != HTTP[0] && SSH[0] != FORWARD[0];
      assert t.None? <==> u.None?;
      if t.Some? {
        assert x[2] == y[2] && x[3] == y[3];
        EncodingIsInjective(EndpointFields(version, e), EndpointFields(version, f));
      }
      EndpointFieldsAreInjective(version, e, f);
    }
  }
}
