/** The one-time keys of client assertions (assertionKey of clientauth.go). */
module ClientAssertions {
  import opened Basics
  import opened Records
  import opened Memory
  import opened Collection

  type byte = x: int | 0 <= x < 256

  /** The bytes of a Go string. */
  type Bytes = seq<byte>

  function Power(k: nat): (p: nat)
    ensures p > 0
  {
    if k == 0 then 1 else 256 * Power(k - 1)
  }

  /** A number in `k` bytes, the most significant first; excess bytes are cut off. */
  function BigEndian(n: nat, k: nat): (r: Bytes)
    ensures |r| == k
  {
    if k == 0 then [] else BigEndian(n / 256, k - 1) + [n % 256]
  }

  /** A part with its length in front. */
  function Frame(part: Bytes): Bytes { BigEndian(|part|, 8) + part }

  /** What is hashed for a list of parts. */
  function Frames(parts: seq<Bytes>): Bytes {
    if parts == [] then [] else Frames(parts[..|parts|-1]) + Frame(parts[|parts|-1])
  }

  const KEY_PREFIX := "client-assertion:"

  /** `digest` is the base64url-encoded SHA-256. */
  function Key(digest: Bytes -> string, issuer: Bytes, clientID: Bytes, jti: Bytes): string {
    KEY_PREFIX + digest(Frames([issuer, clientID, jti]))
  }

  /** assertionKey. */
  method AssertionKey(digest: Bytes -> string, issuer: Bytes, clientID: Bytes, jti: Bytes) returns (key: string)
    ensures key == Key(digest, issuer, clientID, jti)
  {
    var written: Bytes := [];
    var parts := [issuer, clientID, jti];
    for i := 0 to |parts|
      invariant written == Frames(parts[..i])
    {
      assert parts[..i+1][..i] == parts[..i];
      written := written + BigEndian(|parts[i]|, 8);
      assert written + parts[i] == Frames(parts[..i]) + Frame(parts[i]);
      written := written + parts[i];
    }
    assert parts[..|parts|] == parts;
    return KEY_PREFIX + digest(written);
  }

  // --- The encoding is injective --------------------------------------------------------

  /** No part is so long that its length does not fit in eight bytes. */
  ghost predicate Fit(parts: seq<Bytes>) { forall i :: 0 <= i < |parts| ==> |parts[i]| < Power(8) }

  lemma {:induction false} BigEndianInjective(a: nat, b: nat, k: nat)
    requires a < Power(k) && b < Power(k) && BigEndian(a, k) == BigEndian(b, k)
    ensures a == b
  {
    if k > 0 {
      var x, y := BigEndian(a / 256, k - 1), BigEndian(b / 256, k - 1);
      assert x == BigEndian(a, k)[..k-1] && y == BigEndian(b, k)[..k-1];
      assert a % 256 == BigEndian(a, k)[k-1] && b % 256 == BigEndian(b, k)[k-1];
      BigEndianInjective(a / 256, b / 256, k - 1);
    }
  }

  /** Frames from the front. */
  lemma {:induction false} FramesCons(parts: seq<Bytes>)
    requires parts != []
    ensures Frames(parts) == Frame(parts[0]) + Frames(parts[1..])
  {
    if |parts| == 1 {
      assert parts[..0] == [] == parts[1..];
    } else {
      FramesCons(parts[..|parts|-1]);
      assert parts[..|parts|-1][1..] == parts[1..][..|parts|-2];
    }
  }

  /** Different lists of parts are hashed from different bytes, whatever the parts
      contain. */
  lemma {:induction false} FramesInjective(p: seq<Bytes>, q: seq<Bytes>)
    requires Fit(p) && Fit(q)
    ensures Frames(p) == Frames(q) <==> p == q
    decreases |p|
  {
    if p != [] { FramesCons(p); }
    if q != [] { FramesCons(q); }
    if p != [] && q != [] && Frames(p) == Frames(q) {
      var f := Frames(p);
      assert BigEndian(|p[0]|, 8) == f[..8] && BigEndian(|q[0]|, 8) == f[..8];
      BigEndianInjective(|p[0]|, |q[0]|, 8);
      var n := 8 + |p[0]|;
      assert Frame(p[0]) == f[..n] == Frame(q[0]);
      assert p[0] == f[8..n] == q[0];
      assert Frames(p[1..]) == f[n..] == Frames(q[1..]);
      FramesInjective(p[1..], q[1..]);
      assert p == [p[0]] + p[1..] && q == [q[0]] + q[1..];
    }
  }

  ghost predicate Injective(digest: Bytes -> string) { forall x, y :: digest(x) == digest(y) ==> x == y }

  /** Two assertions share a key exactly if they agree on issuer, client and jti. */
  lemma KeysIdentify(digest: Bytes -> string, issuer: Bytes, clientID: Bytes, jti: Bytes,
                     issuer': Bytes, clientID': Bytes, jti': Bytes)
    requires Injective(digest) && Fit([issuer, clientID, jti]) && Fit([issuer', clientID', jti'])
    ensures Key(digest, issuer, clientID, jti) == Key(digest, issuer', clientID', jti') <==>
      issuer == issuer' && clientID == clientID' && jti == jti'
  {
    var p, q := [issuer, clientID, jti], [issuer', clientID', jti'];
    FramesInjective(p, q);
    var k, k' := KEY_PREFIX + digest(Frames(p)), KEY_PREFIX + digest(Frames(q));
    assert k[|KEY_PREFIX|..] == digest(Frames(p)) && k'[|KEY_PREFIX|..] == digest(Frames(q));
    if p == q {
      assert p[0] == q[0] && p[1] == q[1] && p[2] == q[2];
    }
  }

  // --- Claiming them ------------------------------------------------------------------------

  /** A client assertion that reaches ClaimOnce; `expiresAt` includes the leeway. */
  datatype Use = Use(now: Time, issuer: Bytes, clientID: Bytes, jti: Bytes, expiresAt: Time)
  {
    predicate SameAssertion(other: Use) { issuer == other.issuer && clientID == other.clientID && jti == other.jti }
  }

  function Claim(digest: Bytes -> string, u: Use): Event {
    Event(u.now, ClaimOnce(Key(digest, u.issuer, u.clientID, u.jti), u.expiresAt))
  }

  /** A run of storage calls in which `uses` are the assertions that are claimed: the
      provider claims no other keys. */
  ghost predicate Claiming(digest: Bytes -> string, es: seq<Event>, uses: seq<Option<Use>>) {
    && |uses| == |es| && Ordered(es)
    && forall k :: 0 <= k < |es| ==>
         match uses[k]
         case None => !es[k].call.ClaimOnce?
         case Some(u) => es[k] == Claim(digest, u) && Fit([u.issuer, u.clientID, u.jti])
  }

  predicate UsesAt(uses: seq<Option<Use>>, k: nat, u: Use)
    requires k < |uses|
  {
    uses[k].Some? && uses[k].value.SameAssertion(u)
  }

  lemma {:induction false} UnclaimedStaysFree(c: Contents, es: seq<Event>, key: string)
    requires key !in c.claims
    requires forall k :: 0 <= k < |es| ==> !(es[k].call.ClaimOnce? && es[k].call.key == key)
    ensures key !in Run(c, es).claims
    decreases es
  {
    if es != [] {
      assert !(es[0].call.ClaimOnce? && es[0].call.key == key);
      UnclaimedStaysFree(Apply(c, es[0]), es[1..], key);
    }
  }

  /** Whatever else is stored, consumed, deleted and claimed in between, an assertion is
      accepted on its first use. */
  lemma FirstUseSucceeds(digest: Bytes -> string, es: seq<Event>, uses: seq<Option<Use>>, i: nat)
    requires Injective(digest) && Claiming(digest, es, uses) && i < |es| && uses[i].Some?
    requires forall k :: 0 <= k < i ==> !UsesAt(uses, k, uses[i].value)
    ensures ClaimSucceeds(es, i)
  {
    var u := uses[i].value;
    var key := Key(digest, u.issuer, u.clientID, u.jti);
    forall k | 0 <= k < |es[..i]| ensures !(es[..i][k].call.ClaimOnce? && es[..i][k].call.key == key) {
      assert !UsesAt(uses, k, u);
      if uses[k].Some? {
        var v := uses[k].value;
        KeysIdentify(digest, v.issuer, v.clientID, v.jti, u.issuer, u.clientID, u.jti);
      }
    }
    UnclaimedStaysFree(EMPTY, es[..i], key);
  }

  /** And whatever happens in between, it is not accepted again before the claim of an
      accepted use runs out. */
  lemma AcceptedOncePerClaim(digest: Bytes -> string, es: seq<Event>, uses: seq<Option<Use>>, i: nat, j: nat)
    requires Claiming(digest, es, uses) && i < j < |es| && uses[i].Some? && UsesAt(uses, j, uses[i].value)
    requires ClaimSucceeds(es, i) && ClaimSucceeds(es, j)
    ensures uses[j].value.now >= uses[i].value.expiresAt
  {
    ClaimsSpaced(es, i, j);
  }
}
