/**
  Peer measurements travel as bare columns, guarded by a digest of the ordered peer identities.
  Strings are byte strings here (one `char` per byte) and the hash is a parameter.
*/
module PeerIdentity {
  import opened Prelude
  import opened NodeStatusTypes

  type Hash = string -> Digest

  const TWO_64: nat := 0x1_0000_0000_0000_0000
  const TWO_32: nat := 0x1_0000_0000

  // ----- The length-prefixed encoding -----

  /** The low `k` base-256 digits of `n`, most significant first. */
  function Digits(n: nat, k: nat): (r: string)
    ensures |r| == k
  {
    if k == 0 then [] else Digits(n / 256, k - 1) + [(n % 256) as char]
  }

  function Field(v: string): string {
    Digits(|v|, 8) + v
  }

  /** The four fields that name a peer link. */
  function Identity(p: Peer): seq<string> {
    [p.name, p.tunnel.protocol, p.tunnel.iface, p.tunnel.publicKey]
  }

  function EncodeFields(fields: seq<string>): string {
    if fields == [] then [] else Field(fields[0]) + EncodeFields(fields[1..])
  }

  function Fields(peers: seq<Peer>): seq<string> {
    if peers == [] then [] else Identity(peers[0]) + Fields(peers[1..])
  }

  /** The bytes that are hashed for a peer list. */
  function Encode(peers: seq<Peer>): string {
    EncodeFields(Fields(peers))
  }

  /** Lengths fit the eight-byte prefix, as every Go string does. */
  predicate Sized(fields: seq<string>) {
    forall i | 0 <= i < |fields| :: |fields[i]| < TWO_64
  }

  function Pow256(k: nat): nat {
    if k == 0 then 1 else 256 * Pow256(k - 1)
  }

  lemma {:induction false} DigitsInjective(n: nat, m: nat, k: nat)
    requires n < Pow256(k) && m < Pow256(k) && Digits(n, k) == Digits(m, k)
    ensures n == m
  {
    if k > 0 {
      var a, b := Digits(n / 256, k - 1), Digits(m / 256, k - 1);
      assert Digits(n, k)[..k - 1] == a && Digits(m, k)[..k - 1] == b;
      assert Digits(n, k)[k - 1] == (n % 256) as char && Digits(m, k)[k - 1] == (m % 256) as char;
      DigitsInjective(n / 256, m / 256, k - 1);
    }
  }

  lemma EightDigits()
    ensures Pow256(8) == TWO_64
  {
  }

  /** A field can be split off the front of an encoding in one way only. */
  lemma FieldInjective(v: string, w: string, x: string, y: string)
    requires |v| < TWO_64 && |w| < TWO_64 && Field(v) + x == Field(w) + y
    ensures v == w && x == y
  {
    var s, t := Field(v) + x, Field(w) + y;
    assert s[..8] == Digits(|v|, 8) && t[..8] == Digits(|w|, 8);
    EightDigits();
    DigitsInjective(|v|, |w|, 8);
    assert s[8..8 + |v|] == v && t[8..8 + |w|] == w;
    assert s[8 + |v|..] == x && t[8 + |w|..] == y;
  }

  lemma {:induction false} FieldsInjective(a: seq<string>, b: seq<string>)
    requires Sized(a) && Sized(b) && EncodeFields(a) == EncodeFields(b)
    ensures a == b
  {
    if a == [] || b == [] {
      assert a != [] ==> |EncodeFields(a)| >= 8;
      assert b != [] ==> |EncodeFields(b)| >= 8;
    } else {
      FieldInjective(a[0], b[0], EncodeFields(a[1..]), EncodeFields(b[1..]));
      FieldsInjective(a[1..], b[1..]);
      assert a == [a[0]] + a[1..] && b == [b[0]] + b[1..];
    }
  }

  ghost predicate SameIdentities(a: seq<Peer>, b: seq<Peer>) {
    |a| == |b| && forall i | 0 <= i < |a| :: Identity(a[i]) == Identity(b[i])
  }

  lemma {:induction false} FieldsDetermine(a: seq<Peer>, b: seq<Peer>)
    ensures Fields(a) == Fields(b) <==> SameIdentities(a, b)
    ensures |Fields(a)| == 4 * |a|
  {
    if a != [] && b != [] {
      FieldsDetermine(a[1..], b[1..]);
      assert Fields(a)[..4] == Identity(a[0]) && Fields(a)[4..] == Fields(a[1..]);
      assert Fields(b)[..4] == Identity(b[0]) && Fields(b)[4..] == Fields(b[1..]);
      assert SameIdentities(a, b) <==> Identity(a[0]) == Identity(b[0]) && SameIdentities(a[1..], b[1..]) by {
        assert forall i | 0 <= i < |a[1..]| :: a[1..][i] == a[i + 1];
        assert forall i | 0 <= i < |b[1..]| :: b[1..][i] == b[i + 1];
        assert forall i | 1 <= i < |a| :: a[i] == a[1..][i - 1];
        assert forall i | 1 <= i < |b| :: b[i] == b[1..][i - 1];
      }
    } else if a != [] {
      FieldsDetermine(a[1..], b);
    }
  }

  /** The encoding names exactly the ordered identities: equal bytes if and only if equal identities. */
  lemma EncodingIsExact(a: seq<Peer>, b: seq<Peer>)
    requires Sized(Fields(a)) && Sized(Fields(b))
    ensures Encode(a) == Encode(b) <==> SameIdentities(a, b)
  {
    FieldsDetermine(a, b);
    if Encode(a) == Encode(b) {
      FieldsInjective(Fields(a), Fields(b));
    }
  }

  // ----- Validation, full and memoised -----

  datatype Fault = NoPeerName | DuplicatePeer | ColumnMismatch | IdentityMismatch | MissingHealth

  ghost predicate Unique(peers: seq<Peer>) {
    forall i, j | 0 <= i < j < |peers| :: Identity(peers[i]) != Identity(peers[j])
  }

  /** What the uniqueness pass over a peer list establishes. */
  ghost predicate Valid(peers: seq<Peer>) {
    (forall i | 0 <= i < |peers| :: peers[i].name != "") && Unique(peers)
  }

  lemma {:induction false} EncodeFieldsAppend(a: seq<string>, b: seq<string>)
    ensures EncodeFields(a + b) == EncodeFields(a) + EncodeFields(b)
  {
    if a == [] {
      assert a + b == b;
    } else {
      hide Field;
      EncodeFieldsAppend(a[1..], b);
      assert (a + b)[0] == a[0] && (a + b)[1..] == a[1..] + b;
      Associates(Field(a[0]), EncodeFields(a[1..]), EncodeFields(b));
    }
  }

  lemma Associates(x: string, y: string, z: string)
    ensures x + (y + z) == (x + y) + z
  {
  }

  lemma EncodeFieldsMore(fields: seq<string>, k: nat)
    requires k < |fields|
    ensures EncodeFields(fields[..k + 1]) == EncodeFields(fields[..k]) + Field(fields[k])
  {
    hide Field;
    assert fields[..k + 1] == fields[..k] + [fields[k]];
    EncodeFieldsAppend(fields[..k], [fields[k]]);
    assert EncodeFields([fields[k]]) == Field(fields[k]) + EncodeFields([]);
  }

  lemma {:induction false} FieldsAppend(a: seq<Peer>, p: Peer)
    ensures Fields(a + [p]) == Fields(a) + Identity(p)
  {
    if a == [] {
      assert Fields([p]) == Identity(p) + Fields([]);
    } else {
      FieldsAppend(a[1..], p);
      assert (a + [p])[1..] == a[1..] + [p];
    }
  }

  lemma EncodeMore(peers: seq<Peer>, i: nat)
    requires i < |peers|
    ensures Encode(peers[..i + 1]) == Encode(peers[..i]) + EncodeFields(Identity(peers[i]))
  {
    assert peers[..i + 1] == peers[..i] + [peers[i]];
    FieldsAppend(peers[..i], peers[i]);
    EncodeFieldsAppend(Fields(peers[..i]), Identity(peers[i]));
  }

  lemma EncodeNothing()
    ensures EncodeFields([]) == ""
  {
  }

  /** Writes one peer's fields to the hash state, which is the bytes written so far. */
  method WriteIdentity(state: string, p: Peer) returns (r: string)
    ensures r == state + EncodeFields(Identity(p))
  {
    hide EncodeFields, Digits;
    EncodeNothing();
    r := state;
    var fields := Identity(p);
    for k := 0 to 4
      invariant r == state + EncodeFields(fields[..k])
    {
      EncodeFieldsMore(fields, k);
      ghost var before := r;
      r := r + Digits(|fields[k]|, 8) + fields[k];
      assert r == before + Field(fields[k]);
      assert state + EncodeFields(fields[..k]) + Field(fields[k]) == state + (EncodeFields(fields[..k]) + Field(fields[k]));
    }
    assert fields[..4] == fields;
  }

  /** The digest without the uniqueness pass. */
  method HashPeerIdentities(hash: Hash, peers: seq<Peer>) returns (d: Digest)
    ensures d == hash(Encode(peers))
  {
    var state := "";
    for i := 0 to |peers|
      invariant state == Encode(peers[..i])
    {
      state := WriteIdentity(state, peers[i]);
      EncodeMore(peers, i);
    }
    assert peers[..|peers|] == peers;
    d := hash(state);
  }

  lemma ValidMore(peers: seq<Peer>, i: nat)
    requires i < |peers| && Valid(peers[..i])
    ensures Valid(peers[..i + 1]) <==> peers[i].name != "" && forall j | 0 <= j < i :: Identity(peers[j]) != Identity(peers[i])
  {
  }

  lemma PrefixIsValid(peers: seq<Peer>, i: nat)
    requires i <= |peers| && Valid(peers)
    ensures Valid(peers[..i])
  {
  }

  /** The digest with the uniqueness pass: refused exactly when some name is missing or an identity repeats. */
  method PeerIdentityDigest(hash: Hash, peers: seq<Peer>) returns (r: Outcome<Digest, Fault>)
    ensures r.Ok? <==> Valid(peers)
    ensures r.Ok? ==> r.value == hash(Encode(peers))
  {
    NothingIsValid();
    hide Valid, Encode, Identity, EncodeFields;
    var state := "";
    var seen: set<seq<string>> := {};
    for i := 0 to |peers|
      invariant state == Encode(peers[..i]) && Valid(peers[..i])
      invariant seen == set j | 0 <= j < i :: Identity(peers[j])
    {
      ValidMore(peers, i);
      if peers[i].name == "" {
        if Valid(peers) {
          PrefixIsValid(peers, i + 1);
        }
        return Err(NoPeerName);
      }
      var id := Identity(peers[i]);
      if id in seen {
        if Valid(peers) {
          PrefixIsValid(peers, i + 1);
        }
        return Err(DuplicatePeer);
      }
      assert forall j | 0 <= j < i :: Identity(peers[j]) in seen;
      seen := seen + {id};
      state := WriteIdentity(state, peers[i]);
      EncodeMore(peers, i);
    }
    assert peers[..|peers|] == peers;
    r := Ok(hash(state));
  }

  lemma NothingIsValid()
    ensures Valid([]) && Encode([]) == ""
  {
  }

  /** What validation returns for a list, whatever memo it was given. */
  ghost predicate Accepts(hash: Hash, peers: seq<Peer>, r: Outcome<Digest, Fault>) {
    (r.Ok? <==> Valid(peers)) && (r.Ok? ==> r.value == hash(Encode(peers)))
  }

  /** A memo is the digest of some list that passed the full check and whose bytes do not collide with the new ones. */
  ghost predicate IsMemo(hash: Hash, memo: Digest, validated: seq<Peer>, peers: seq<Peer>) {
    && Valid(validated) && Sized(Fields(validated)) && memo == hash(Encode(validated))
    && (hash(Encode(validated)) == hash(Encode(peers)) ==> Encode(validated) == Encode(peers))
  }

  lemma SameIdentitiesSameValidity(a: seq<Peer>, b: seq<Peer>)
    requires SameIdentities(a, b)
    ensures Valid(a) <==> Valid(b)
  {
  }

  /** With or without a memo, the same lists are accepted with the same digest. */
  method ValidatePeerIdentity(hash: Hash, peers: seq<Peer>, previous: Option<Digest>, ghost validated: seq<Peer>)
    returns (r: Outcome<Digest, Fault>)
    requires Sized(Fields(peers))
    requires previous.Some? ==> IsMemo(hash, previous.value, validated, peers)
    ensures Accepts(hash, peers, r)
  {
    if previous.Some? {
      var d := HashPeerIdentities(hash, peers);
      if d == previous.value {
        EncodingIsExact(validated, peers);
        SameIdentitiesSameValidity(validated, peers);
        return Ok(previous.value);
      }
    }
    r := PeerIdentityDigest(hash, peers);
  }

  // ----- Measurements -----

  datatype Measurements = Measurements(
    peerCount: nat, identityDigest: Digest,
    rxBytes: seq<int>, txBytes: seq<int>, lastHandshake: seq<int>, uptime: seq<string>, rtt: seq<string>)

  predicate ColumnsFit(peers: seq<Peer>, m: Measurements) {
    m.peerCount == |peers| && |m.rxBytes| == |peers| && |m.txBytes| == |peers|
    && |m.lastHandshake| == |peers| && |m.uptime| == |peers| && |m.rtt| == |peers|
  }

  /** One peer with the measured columns of index `i`; zero stands for no handshake. */
  function Measure(p: Peer, m: Measurements, i: nat): Peer
    requires i < |m.rxBytes| && i < |m.txBytes| && i < |m.lastHandshake| && i < |m.uptime| && i < |m.rtt|
  {
    p.(tunnel := p.tunnel.(rxBytes := m.rxBytes[i], txBytes := m.txBytes[i],
                           lastHandshake := if m.lastHandshake[i] == 0 then None else Some(m.lastHandshake[i])),
       health := if p.health.None? then None else Some(p.health.value.(uptime := m.uptime[i], rtt := m.rtt[i])))
  }

  /** Columns with health values belong to peers that have health metadata. */
  predicate HealthFits(peers: seq<Peer>, m: Measurements)
    requires ColumnsFit(peers, m)
  {
    forall i | 0 <= i < |peers| :: peers[i].health.None? ==> m.uptime[i] == "" && m.rtt[i] == ""
  }

  /** Measurements apply exactly when every column fits, the identities are valid and are the ones the digest names. */
  ghost predicate Applies(hash: Hash, peers: seq<Peer>, m: Measurements) {
    ColumnsFit(peers, m) && Valid(peers) && hash(Encode(peers)) == m.identityDigest && HealthFits(peers, m)
  }

  /** All or nothing: a full new list with unchanged identities, or a fault and no list. */
  method ApplyPeerMeasurements(hash: Hash, peers: seq<Peer>, m: Measurements, previous: Option<Digest>, ghost validated: seq<Peer>)
    returns (r: Outcome<(seq<Peer>, Digest), Fault>)
    requires Sized(Fields(peers))
    requires previous.Some? ==> IsMemo(hash, previous.value, validated, peers)
    ensures r.Ok? <==> Applies(hash, peers, m)
    ensures r.Ok? ==> |r.value.0| == |peers| && forall i | 0 <= i < |peers| :: r.value.0[i] == Measure(peers[i], m, i)
    ensures r.Ok? ==> SameIdentities(r.value.0, peers) && Valid(r.value.0) && r.value.1 == hash(Encode(r.value.0))
  {
    if !ColumnsFit(peers, m) {
      return Err(ColumnMismatch);
    }
    var d := ValidatePeerIdentity(hash, peers, previous, validated);
    if d.Err? {
      return Err(d.error);
    }
    if d.value != m.identityDigest {
      return Err(IdentityMismatch);
    }
    for i := 0 to |peers|
      invariant forall k | 0 <= k < i :: peers[k].health.None? ==> m.uptime[k] == "" && m.rtt[k] == ""
    {
      if peers[i].health.None? && (m.uptime[i] != "" || m.rtt[i] != "") {
        return Err(MissingHealth);
      }
    }
    var result: seq<Peer> := [];
    for i := 0 to |peers|
      invariant |result| == i && forall k | 0 <= k < i :: result[k] == Measure(peers[k], m, k)
    {
      result := result + [Measure(peers[i], m, i)];
    }
    assert SameIdentities(result, peers);
    FieldsDetermine(result, peers);
    SameIdentitiesSameValidity(result, peers);
    r := Ok((result, d.value));
  }

  /** The columns a node sends for its peers; the count is a 32-bit number and the handshakes are 64-bit nanoseconds. */
  function Columns(hash: Hash, peers: seq<Peer>): Measurements {
    Measurements(|peers| % TWO_32, hash(Encode(peers)),
                 seq(|peers|, i requires 0 <= i < |peers| => peers[i].tunnel.rxBytes),
                 seq(|peers|, i requires 0 <= i < |peers| => peers[i].tunnel.txBytes),
                 seq(|peers|, i requires 0 <= i < |peers| =>
                   if peers[i].tunnel.lastHandshake.None? then 0 else Wrap(peers[i].tunnel.lastHandshake.value)),
                 seq(|peers|, i requires 0 <= i < |peers| => if peers[i].health.None? then "" else peers[i].health.value.uptime),
                 seq(|peers|, i requires 0 <= i < |peers| => if peers[i].health.None? then "" else peers[i].health.value.rtt))
  }

  /** Everything about a peer but its measurements. */
  function Metadata(p: Peer): Peer {
    p.(tunnel := p.tunnel.(rxBytes := 0, txBytes := 0, lastHandshake := None),
       health := if p.health.None? then None else Some(p.health.value.(uptime := "", rtt := "")))
  }

  /** A handshake that a column of 64-bit nanoseconds, in which zero stands for none, can carry. */
  predicate Sendable(handshake: Option<Time>) {
    handshake.None? || (handshake.value != 0 && -MAX_INT64 - 1 <= handshake.value <= MAX_INT64)
  }

  /** Sending only columns loses nothing: applied to peers of the same metadata they give the sender's peers back, exactly
      for every peer without a handshake or with one off the Unix epoch and within 64-bit nanoseconds of it. */
  lemma ColumnsRoundTrip(hash: Hash, base: seq<Peer>, peers: seq<Peer>, i: nat)
    requires |base| == |peers| && i < |peers| && Metadata(base[i]) == Metadata(peers[i])
    ensures Measure(base[i], Columns(hash, peers), i) == peers[i] <==> Sendable(peers[i].tunnel.lastHandshake)
  {
  }

  /** A receiver that holds peers of the same metadata accepts a sender's columns, up to the 32-bit count. */
  lemma ColumnsApply(hash: Hash, base: seq<Peer>, peers: seq<Peer>)
    requires |base| == |peers| && (forall i | 0 <= i < |peers| :: Metadata(base[i]) == Metadata(peers[i])) && Valid(peers)
    ensures Applies(hash, base, Columns(hash, peers)) <==> |peers| < TWO_32
  {
    forall i | 0 <= i < |peers| ensures Identity(base[i]) == Identity(peers[i]) && base[i].health.None? == peers[i].health.None? {
      assert Metadata(base[i]).tunnel == Metadata(peers[i]).tunnel;
      assert Metadata(base[i]).name == Metadata(peers[i]).name;
      assert Metadata(base[i]).health.None? == Metadata(peers[i]).health.None?;
    }
    assert SameIdentities(base, peers);
    FieldsDetermine(base, peers);
    SameIdentitiesSameValidity(base, peers);
  }
}
