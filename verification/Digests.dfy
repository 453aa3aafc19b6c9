/** Content digests of a pack (contracts/conformance/validate.py): canonical bytes, and the two checks that
    compare a manifest with a payload. The hash itself is a parameter. */
module Digests {
  import opened Texts
  import opened Json
  import opened JsonCanon
  import opened JsonForm
  import Utf8

  /** The bytes `canonical_sha256` hashes; a lone surrogate makes the encoding raise. */
  function CanonicalBytes(body: Value): Option<seq<Byte>> { Utf8.Encode(Dumps(body, false)) }

  predicate Hashable(payload: seq<Field>) {
    forall f | f in payload :: CanonicalBytes(f.value).Some?
  }

  function Digest(sha: seq<Byte> -> string, body: Value): string
    requires CanonicalBytes(body).Some?
  {
    sha(CanonicalBytes(body).value)
  }

  /** One digest per section of the payload. */
  function Recomputed(sha: seq<Byte> -> string, payload: seq<Field>): (m: map<Text, string>)
    requires Hashable(payload)
  {
    if payload == [] then map[]
    else
      var last := payload[|payload| - 1];
      Recomputed(sha, payload[..|payload| - 1])[last.key := Digest(sha, last.value)]
  }

  lemma HasKeyLast(payload: seq<Field>, key: Text)
    requires payload != []
    ensures HasKey(payload, key) <==> HasKey(payload[..|payload| - 1], key) || key == payload[|payload| - 1].key
  {
    var init := payload[..|payload| - 1];
    if HasKey(payload, key) {
      var i :| 0 <= i < |payload| && payload[i].key == key;
      assert i < |init| ==> init[i] == payload[i];
    }
  }

  lemma {:induction false} RecomputedKeys(sha: seq<Byte> -> string, payload: seq<Field>, key: Text)
    requires Hashable(payload)
    ensures key in Recomputed(sha, payload) <==> HasKey(payload, key)
  {
    if payload != [] {
      RecomputedKeys(sha, payload[..|payload| - 1], key);
      HasKeyLast(payload, key);
    }
  }

  lemma {:induction false} RecomputedAt(sha: seq<Byte> -> string, payload: seq<Field>, i: nat)
    requires DistinctKeys(payload) && Hashable(payload) && i < |payload|
    ensures payload[i].key in Recomputed(sha, payload)
    ensures Recomputed(sha, payload)[payload[i].key] == Digest(sha, payload[i].value)
  {
    var init, last := payload[..|payload| - 1], payload[|payload| - 1];
    if i < |init| {
      assert init[i] == payload[i] && payload[i].key != last.key;
      RecomputedAt(sha, init, i);
    }
  }

  /** Two bodies have the same canonical bytes exactly when they are equal up to key order. */
  lemma {:induction false} CanonicalBytesIff(v: Value, w: Value)
    requires Proper(v) && Proper(w) && CanonicalBytes(v).Some? && CanonicalBytes(w).Some?
    ensures CanonicalBytes(v) == CanonicalBytes(w) <==> Equivalent(v, w)
  {
    CanonicalIff(v, w);
    Utf8.DecodeEncode(Dumps(v, false));
    Utf8.DecodeEncode(Dumps(w, false));
  }

  /** They are the UTF-8 of the compact text of the one value that is equal up to key order and whose keys ascend. */
  lemma {:induction false} CanonicalBytesForm(v: Value, w: Value)
    requires Proper(v) && Proper(w) && KeysAscend(w) && Equivalent(v, w)
    ensures CanonicalBytes(v) == Utf8.Encode(Show(w, false))
  {
    NormalForm(v, w);
  }

  datatype Verdict = Raised | Checked(covers: bool, digestsMatch: bool)

  method Recompute(sha: seq<Byte> -> string, payload: seq<Field>) returns (r: Option<map<Text, string>>)
    ensures r.Some? <==> Hashable(payload)
    ensures r.Some? ==> r.value == Recomputed(sha, payload)
  {
    var recomputed: map<Text, string> := map[];
    for i := 0 to |payload|
      invariant Hashable(payload[..i])
      invariant recomputed == Recomputed(sha, payload[..i])
    {
      if CanonicalBytes(payload[i].value).None? {
        assert payload[i] in payload;
        return None;
      }
      OneMoreSection(sha, payload, i);
      recomputed := recomputed[payload[i].key := Digest(sha, payload[i].value)];
    }
    assert payload[..|payload|] == payload;
    return Some(recomputed);
  }

  lemma OneMoreSection(sha: seq<Byte> -> string, payload: seq<Field>, i: nat)
    requires i < |payload| && Hashable(payload[..i]) && CanonicalBytes(payload[i].value).Some?
    ensures Hashable(payload[..i + 1])
    ensures Recomputed(sha, payload[..i + 1]) == Recomputed(sha, payload[..i])[payload[i].key := Digest(sha, payload[i].value)]
  {
    assert payload[..i + 1] == payload[..i] + [payload[i]];
    assert payload[..i + 1][..i] == payload[..i];
  }

  /** The manifest gives this section the recomputed digest. */
  predicate Matches(manifest: map<Text, string>, recomputed: map<Text, string>, key: Text)
    requires key in recomputed
  {
    key in manifest && manifest[key] == recomputed[key]
  }

  /** The loop over the sections. */
  method CompareDigests(payload: seq<Field>, manifest: map<Text, string>, recomputed: map<Text, string>) returns (ok: bool)
    requires forall key :: key in recomputed <==> HasKey(payload, key)
    ensures ok <==> forall key | key in recomputed :: Matches(manifest, recomputed, key)
  {
    ok := true;
    for i := 0 to |payload|
      invariant ok <==> forall k :: 0 <= k < i ==> Matches(manifest, recomputed, payload[k].key)
    {
      if !Matches(manifest, recomputed, payload[i].key) { ok := false; }
    }
    forall key | key in recomputed ensures exists k :: 0 <= k < |payload| && payload[k].key == key {
      assert HasKey(payload, key);
    }
  }

  lemma MatchingIsEqual(payload: seq<Field>, manifest: map<Text, string>, recomputed: map<Text, string>)
    ensures manifest.Keys == recomputed.Keys && (forall key | key in recomputed :: Matches(manifest, recomputed, key))
            <==> manifest == recomputed
  {
    if manifest.Keys == recomputed.Keys && forall key | key in recomputed :: Matches(manifest, recomputed, key) {
      assert forall key | key in recomputed :: Matches(manifest, recomputed, key) && manifest[key] == recomputed[key];
    }
  }

  /** The digest block of `main`: recompute, compare the key sets, then compare every digest. */
  method CheckDigests(sha: seq<Byte> -> string, payload: seq<Field>, manifest: map<Text, string>) returns (v: Verdict)
    requires DistinctKeys(payload)
    ensures v.Raised? <==> !Hashable(payload)
    ensures v.Checked? ==> (v.covers && v.digestsMatch <==> manifest == Recomputed(sha, payload))
    ensures v.Checked? ==> (v.covers <==> forall key :: key in manifest <==> HasKey(payload, key))
  {
    var r := Recompute(sha, payload);
    if r.None? { return Raised; }
    forall key ensures key in r.value <==> HasKey(payload, key) { RecomputedKeys(sha, payload, key); }
    var digestsMatch := CompareDigests(payload, manifest, r.value);
    MatchingIsEqual(payload, manifest, r.value);
    v := Checked(manifest.Keys == r.value.Keys, digestsMatch);
  }

  /** No digest is shared by two sections with different canonical bytes. */
  predicate NoCollision(sha: seq<Byte> -> string, p: seq<Field>, q: seq<Field>)
    requires Hashable(p) && Hashable(q)
  {
    forall f, g | f in p && g in q ::
      Digest(sha, f.value) == Digest(sha, g.value) ==> CanonicalBytes(f.value) == CanonicalBytes(g.value)
  }

  lemma SectionsAgree(sha: seq<Byte> -> string, p: seq<Field>, q: seq<Field>, i: nat, j: nat)
    requires Proper(Obj(p)) && Proper(Obj(q)) && Hashable(p) && Hashable(q) && NoCollision(sha, p, q)
    requires i < |p| && j < |q|
    ensures Digest(sha, p[i].value) == Digest(sha, q[j].value) <==> Equivalent(p[i].value, q[j].value)
  {
    assert p[i] in p && q[j] in q;
    CanonicalBytesIff(p[i].value, q[j].value);
  }

  /** `a` and `b` are keyed by the sections of `p` and of `q`, and agree on a shared key exactly where the
      sections do. */
  predicate Tables(p: seq<Field>, q: seq<Field>, a: map<Text, string>, b: map<Text, string>) {
    && (forall i :: 0 <= i < |p| ==> p[i].key in a)
    && (forall j :: 0 <= j < |q| ==> q[j].key in b)
    && (forall key | key in a :: HasKey(p, key))
    && (forall key | key in b :: HasKey(q, key))
    && (forall i, j :: 0 <= i < |p| && 0 <= j < |q| && p[i].key == q[j].key ==>
         (a[p[i].key] == b[q[j].key] <==> Equivalent(p[i].value, q[j].value)))
  }

  lemma EqualTables(p: seq<Field>, q: seq<Field>, a: map<Text, string>)
    requires Tables(p, q, a, a)
    ensures Equivalent(Obj(p), Obj(q))
  {
    forall i | 0 <= i < |p| ensures HasKey(q, p[i].key) { assert p[i].key in a; }
    forall j | 0 <= j < |q| ensures HasKey(p, q[j].key) { assert q[j].key in a; }
  }

  lemma EquivalentSections(p: seq<Field>, q: seq<Field>, a: map<Text, string>, b: map<Text, string>)
    requires Tables(p, q, a, b) && Equivalent(Obj(p), Obj(q))
    ensures a == b
  {
    forall key | key in a ensures key in b && a[key] == b[key] {
      var i :| 0 <= i < |p| && p[i].key == key;
      assert HasKey(q, p[i].key);
      var j :| 0 <= j < |q| && q[j].key == key;
    }
    forall key | key in b ensures key in a {
      var j :| 0 <= j < |q| && q[j].key == key;
      assert HasKey(p, q[j].key);
      var i :| 0 <= i < |p| && p[i].key == key;
    }
  }

  /** Where the hash has no collision among the sections at hand, one manifest fits two payloads exactly when
      they are the same JSON up to key order. */
  lemma {:induction false} DigestsPinPayload(sha: seq<Byte> -> string, p: seq<Field>, q: seq<Field>)
    requires Proper(Obj(p)) && Proper(Obj(q)) && Hashable(p) && Hashable(q) && NoCollision(sha, p, q)
    ensures Recomputed(sha, p) == Recomputed(sha, q) <==> Equivalent(Obj(p), Obj(q))
  {
    var a, b := Recomputed(sha, p), Recomputed(sha, q);
    forall key | key in a ensures HasKey(p, key) { RecomputedKeys(sha, p, key); }
    forall key | key in b ensures HasKey(q, key) { RecomputedKeys(sha, q, key); }
    forall i | 0 <= i < |p| ensures p[i].key in a { RecomputedAt(sha, p, i); }
    forall j | 0 <= j < |q| ensures q[j].key in b { RecomputedAt(sha, q, j); }
    forall i, j | 0 <= i < |p| && 0 <= j < |q| && p[i].key == q[j].key
      ensures a[p[i].key] == b[q[j].key] <==> Equivalent(p[i].value, q[j].value)
    {
      RecomputedAt(sha, p, i);
      RecomputedAt(sha, q, j);
      SectionsAgree(sha, p, q, i, j);
    }
    assert Tables(p, q, a, b);
    if a == b { EqualTables(p, q, a); }
    if Equivalent(Obj(p), Obj(q)) { EquivalentSections(p, q, a, b); }
  }
}
