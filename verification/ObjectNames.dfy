/** Object keys of tenant documents (cm-backend/src/admin_backend/gcs.py). */
module ObjectNames {
  import opened Texts
  import opened Uuids

  const SLASH: CodePoint := 0x2F
  const UNDERSCORE: CodePoint := 0x5F

  predicate Alnum(c: CodePoint) { 0x30 <= c <= 0x39 || 0x41 <= c <= 0x5A || 0x61 <= c <= 0x7A }

  /** One of `._-`, the characters that are stripped from the ends. */
  predicate Separator(c: CodePoint) { c == 0x2E || c == UNDERSCORE || c == 0x2D }

  predicate Safe(c: CodePoint) { Alnum(c) || Separator(c) }

  // ----------------------------------------------------------- sanitize_file_name

  function SkipUnsafe(t: Text): (r: Text)
    ensures |r| <= |t|
  {
    if t == [] || Safe(t[0]) then t else SkipUnsafe(t[1..])
  }

  /** `re.sub` of every run of unsafe characters by one underscore. */
  function Collapse(t: Text): Text
    decreases |t|
  {
    if t == [] then []
    else if Safe(t[0]) then [t[0]] + Collapse(t[1..])
    else [UNDERSCORE] + Collapse(SkipUnsafe(t[1..]))
  }

  function StripLeft(t: Text): Text {
    if t != [] && Separator(t[0]) then StripLeft(t[1..]) else t
  }

  function StripRight(t: Text): Text {
    if t != [] && Separator(t[|t| - 1]) then StripRight(t[..|t| - 1]) else t
  }

  function Sanitize(name: Text): Text {
    var cleaned := StripRight(StripLeft(Collapse(name)));
    if cleaned == [] then Lit("file") else cleaned
  }

  predicate AllSafe(t: Text) { forall i :: 0 <= i < |t| ==> Safe(t[i]) }

  /** What a sanitised name looks like: not empty, in the safe alphabet, no separator at either end. */
  predicate Sanitised(t: Text) { t != [] && AllSafe(t) && !Separator(t[0]) && !Separator(t[|t| - 1]) }

  /** The letters and digits of a name, in order. */
  function Letters(t: Text): Text {
    if t == [] then [] else (if Alnum(t[0]) then [t[0]] else []) + Letters(t[1..])
  }

  lemma {:induction false} LettersConcat(a: Text, b: Text)
    ensures Letters(a + b) == Letters(a) + Letters(b)
  {
    if a == [] {
      assert a + b == b;
    } else {
      LettersConcat(a[1..], b);
      LettersCons(a[0], a[1..]);
      LettersCons(a[0], a[1..] + b);
      assert a == [a[0]] + a[1..] && a + b == [a[0]] + (a[1..] + b);
      Regroup(if Alnum(a[0]) then [a[0]] else [], Letters(a[1..]), Letters(b));
    }
  }

  lemma LettersCons(c: CodePoint, t: Text)
    ensures Letters([c] + t) == (if Alnum(c) then [c] else []) + Letters(t)
  {
    assert ([c] + t)[1..] == t;
  }

  lemma Regroup(a: Text, b: Text, c: Text)
    ensures a + (b + c) == a + b + c
  {
  }

  lemma {:induction false} SkipKeepsLetters(t: Text)
    ensures Letters(SkipUnsafe(t)) == Letters(t)
  {
    if t != [] && !Safe(t[0]) { SkipKeepsLetters(t[1..]); }
  }

  lemma {:induction false} CollapseKeeps(t: Text)
    ensures AllSafe(Collapse(t)) && Letters(Collapse(t)) == Letters(t)
    decreases |t|
  {
    if t != [] {
      if Safe(t[0]) {
        CollapseKeeps(t[1..]);
        assert Collapse(t)[1..] == Collapse(t[1..]);
      } else {
        CollapseKeeps(SkipUnsafe(t[1..]));
        SkipKeepsLetters(t[1..]);
        assert Collapse(t)[1..] == Collapse(SkipUnsafe(t[1..]));
      }
    }
  }

  lemma {:induction false} CollapseFixes(t: Text)
    requires AllSafe(t)
    ensures Collapse(t) == t
  {
    if t != [] { CollapseFixes(t[1..]); }
  }

  lemma {:induction false} StripLeftKeeps(t: Text)
    requires AllSafe(t)
    ensures var r := StripLeft(t); AllSafe(r) && Letters(r) == Letters(t) && (r != [] ==> !Separator(r[0]))
  {
    if t != [] && Separator(t[0]) { StripLeftKeeps(t[1..]); }
  }

  lemma {:induction false} StripRightKeeps(t: Text)
    requires AllSafe(t)
    ensures var r := StripRight(t);
            && AllSafe(r) && Letters(r) == Letters(t)
            && (r != [] ==> !Separator(r[|r| - 1]) && r[0] == t[0])
  {
    if t != [] && Separator(t[|t| - 1]) {
      var init := t[..|t| - 1];
      StripRightKeeps(init);
      assert t == init + [t[|t| - 1]];
      LettersConcat(init, [t[|t| - 1]]);
      assert Letters([t[|t| - 1]]) == [];
    }
  }

  lemma SomeLetter(t: Text)
    requires AllSafe(t) && t != [] && !Separator(t[0])
    ensures Letters(t) != []
  {
  }

  /** The result is always sanitised, and it has exactly the letters and digits of the input in order; an input
      without any becomes "file". */
  lemma {:induction false} SanitizeKeepsLetters(name: Text)
    ensures Sanitised(Sanitize(name))
    ensures Letters(Sanitize(name)) == if Letters(name) == [] then Lit("file") else Letters(name)
    ensures Letters(name) == [] ==> Sanitize(name) == Lit("file")
  {
    var c := Collapse(name);
    CollapseKeeps(name);
    StripLeftKeeps(c);
    StripRightKeeps(StripLeft(c));
    var r := StripRight(StripLeft(c));
    if r == [] {
      LettersOfFile();
    } else {
      SomeLetter(r);
    }
  }

  lemma LettersOfFile()
    ensures Letters(Lit("file")) == Lit("file") && Sanitised(Lit("file"))
  {
    var f := Lit("file");
    assert f == [0x66, 0x69, 0x6C, 0x65];
    assert f[1..] == [0x69, 0x6C, 0x65] && f[1..][1..] == [0x6C, 0x65] && f[1..][1..][1..] == [0x65];
    assert Letters([0x65]) == [0x65];
    assert Letters([0x6C, 0x65]) == [0x6C, 0x65];
    assert Letters([0x69, 0x6C, 0x65]) == [0x69, 0x6C, 0x65];
  }

  /** The fixed points are exactly the sanitised names, so sanitising twice is sanitising once. */
  lemma {:induction false} SanitizeFixes(name: Text)
    ensures Sanitize(name) == name <==> Sanitised(name)
    ensures Sanitize(Sanitize(name)) == Sanitize(name)
  {
    SanitizeKeepsLetters(name);
    if Sanitised(name) { CollapseFixes(name); }
    CollapseFixes(Sanitize(name));
  }

  predicate AllUnsafe(t: Text) { forall i :: 0 <= i < |t| ==> !Safe(t[i]) }

  predicate AllSeparators(t: Text) { forall i :: 0 <= i < |t| ==> Separator(t[i]) }

  lemma {:induction false} SkipRun(run: Text, b: Text)
    requires AllUnsafe(run) && (b != [] ==> Safe(b[0]))
    ensures SkipUnsafe(run + b) == b
  {
    if run == [] {
      assert run + b == b;
    } else {
      assert (run + b)[1..] == run[1..] + b;
      SkipRun(run[1..], b);
    }
  }

  /** A run of unsafe characters becomes one underscore, whatever its length and whatever stands around it. */
  lemma {:induction false} RunCollapses(a: Text, run: Text, b: Text)
    requires run != [] && AllUnsafe(run) && (a != [] ==> Safe(a[|a| - 1])) && (b != [] ==> Safe(b[0]))
    ensures Collapse(a + run + b) == Collapse(a) + Lit("_") + Collapse(b)
  {
    assert a + run + b == a + (run + b);
    CollapseThrough(a, run + b);
    CollapseRun(run, b);
    assert Collapse(a) + ([UNDERSCORE] + Collapse(b)) == Collapse(a) + [UNDERSCORE] + Collapse(b);
    assert Lit("_") == [UNDERSCORE];
  }

  lemma CollapseRun(run: Text, b: Text)
    requires run != [] && AllUnsafe(run) && (b != [] ==> Safe(b[0]))
    ensures Collapse(run + b) == [UNDERSCORE] + Collapse(b)
  {
    assert (run + b)[1..] == run[1..] + b;
    SkipRun(run[1..], b);
  }

  /** Up to a safe character a name is collapsed by itself. */
  lemma {:induction false} CollapseThrough(a: Text, t: Text)
    requires a != [] ==> Safe(a[|a| - 1])
    ensures Collapse(a + t) == Collapse(a) + Collapse(t)
    decreases |a|
  {
    if a == [] {
      assert a + t == t;
    } else {
      assert (a + t)[1..] == a[1..] + t;
      if Safe(a[0]) {
        CollapseThrough(a[1..], t);
      } else {
        SkipBefore(a[1..], t);
        CollapseThrough(SkipUnsafe(a[1..]), t);
      }
    }
  }

  /** Skipping stops at a safe character, so not beyond a text that ends in one. */
  lemma {:induction false} SkipBefore(a: Text, t: Text)
    requires a != [] && Safe(a[|a| - 1])
    ensures SkipUnsafe(a + t) == SkipUnsafe(a) + t
    ensures SkipUnsafe(a) != [] && SkipUnsafe(a)[|SkipUnsafe(a)| - 1] == a[|a| - 1]
  {
    if !Safe(a[0]) {
      assert (a + t)[1..] == a[1..] + t;
      SkipBefore(a[1..], t);
    }
  }

  /** The result is the collapsed name without the separators at its ends, and nothing else is cut off. */
  lemma {:induction false} SanitizeTrims(name: Text) returns (left: Text, right: Text)
    ensures AllSeparators(left) && AllSeparators(right)
    ensures Collapse(name) == left + (if Letters(name) == [] then [] else Sanitize(name)) + right
  {
    var c := Collapse(name);
    CollapseKeeps(name);
    StripLeftKeeps(c);
    StripRightKeeps(StripLeft(c));
    left := StripLeftTrims(c);
    right := StripRightTrims(StripLeft(c));
    var r := StripRight(StripLeft(c));
    if r != [] { SomeLetter(r); }
  }

  lemma {:induction false} StripLeftTrims(t: Text) returns (left: Text)
    ensures AllSeparators(left) && t == left + StripLeft(t)
  {
    left := [];
    if t != [] && Separator(t[0]) {
      var rest := StripLeftTrims(t[1..]);
      left := [t[0]] + rest;
    }
  }

  lemma {:induction false} StripRightTrims(t: Text) returns (right: Text)
    ensures AllSeparators(right) && t == StripRight(t) + right
  {
    right := [];
    if t != [] && Separator(t[|t| - 1]) {
      var rest := StripRightTrims(t[..|t| - 1]);
      right := rest + [t[|t| - 1]];
    }
  }

  // ---------------------------------------------------------- object names

  function ObjectName(tenant: Uuid, fileName: Text, token: Text): Text {
    Lit("tenants/") + ToText(tenant) + (Lit("/documents/") + token + [SLASH] + Sanitize(fileName))
  }

  lemma SameLengthPrefix(a: Text, x: Text, b: Text, y: Text)
    requires |a| == |b| && a + x == b + y
    ensures a == b && x == y
  {
    assert (a + x)[..|a|] == a && (b + y)[..|b|] == b;
    assert (a + x)[|a|..] == x && (b + y)[|b|..] == y;
  }

  lemma NoSlashAfter(a: Text, m: Text)
    requires SLASH !in m
    ensures forall k :: |a| < k < |a| + 1 + |m| ==> (a + [SLASH] + m)[k] != SLASH
  {
    forall k | |a| < k < |a| + 1 + |m| ensures (a + [SLASH] + m)[k] != SLASH {
      assert (a + [SLASH] + m)[k] == m[k - |a| - 1];
    }
  }

  lemma LastSlash(a: Text, m: Text, b: Text, n: Text)
    requires SLASH !in m && SLASH !in n && a + [SLASH] + m == b + [SLASH] + n
    ensures a == b && m == n
  {
    var s := a + [SLASH] + m;
    NoSlashAfter(a, m);
    NoSlashAfter(b, n);
    assert s[|a|] == SLASH && s[|b|] == SLASH;
    SameLengthPrefix(a + [SLASH], m, b + [SLASH], n);
    SameLengthPrefix(a, [SLASH], b, [SLASH]);
  }

  lemma NoSlash(name: Text)
    ensures SLASH !in Sanitize(name)
  {
    SanitizeKeepsLetters(name);
  }

  /** An object name determines the tenant, the token and the sanitised file name: the tenant's text has one
      length, and the last slash is the one before the file name, even when the token holds slashes. */
  lemma {:induction false} ObjectNameInjective(t1: Uuid, f1: Text, k1: Text, t2: Uuid, f2: Text, k2: Text)
    ensures ObjectName(t1, f1, k1) == ObjectName(t2, f2, k2) <==> t1 == t2 && k1 == k2 && Sanitize(f1) == Sanitize(f2)
  {
    if ObjectName(t1, f1, k1) == ObjectName(t2, f2, k2) {
      var x := Lit("/documents/") + k1 + [SLASH] + Sanitize(f1);
      var y := Lit("/documents/") + k2 + [SLASH] + Sanitize(f2);
      SameLengthPrefix(Lit("tenants/") + ToText(t1), x, Lit("tenants/") + ToText(t2), y);
      SameLengthPrefix(Lit("tenants/"), ToText(t1), Lit("tenants/"), ToText(t2));
      TextRoundTrip(t1);
      TextRoundTrip(t2);
      NoSlash(f1);
      NoSlash(f2);
      LastSlash(Lit("/documents/") + k1, Sanitize(f1), Lit("/documents/") + k2, Sanitize(f2));
      SameLengthPrefix(Lit("/documents/"), k1, Lit("/documents/"), k2);
    }
  }

  /** tenants/{tenant_id}/documents/{token}/{name}, with the sanitised name. */
  lemma {:induction false} ObjectNameForm(tenant: Uuid, fileName: Text, token: Text)
    ensures ObjectName(tenant, fileName, token) ==
              Lit("tenants/") + ToText(tenant) + Lit("/documents/") + token + Lit("/") + Sanitize(fileName)
  {
    var a, b, c := Lit("tenants/") + ToText(tenant), Lit("/documents/"), Sanitize(fileName);
    Regroup(a, b, token);
    Regroup(a, b + token, [SLASH]);
    Regroup(a, b + token + [SLASH], c);
    assert Lit("/") == [SLASH];
  }

  // ------------------------------------------------------------------- URIs

  function Prefix(bucket: Text): Text { Lit("gs://") + bucket + [SLASH] }

  function BuildGsUri(bucket: Text, objectName: Text): Text { Lit("gs://") + bucket + [SLASH] + objectName }

  function ObjectNameFromUri(uri: Text, bucket: Text): Text {
    var prefix := Prefix(bucket);
    if |uri| >= |prefix| && uri[..|prefix|] == prefix then uri[|prefix|..] else uri
  }

  /** For every bucket and key, slashes or not, the key is read back; and rebuilding a URI from what was read gives
      the URI exactly when it carried the bucket's prefix. */
  lemma {:induction false} UriRoundTrip(bucket: Text, objectName: Text, uri: Text)
    ensures BuildGsUri(bucket, objectName) == Lit("gs://") + bucket + Lit("/") + objectName
    ensures ObjectNameFromUri(BuildGsUri(bucket, objectName), bucket) == objectName
    ensures BuildGsUri(bucket, ObjectNameFromUri(uri, bucket)) == uri <==> Prefix(bucket) <= uri
  {
    var prefix := Prefix(bucket);
    assert BuildGsUri(bucket, objectName) == prefix + objectName;
    assert (prefix + objectName)[..|prefix|] == prefix && (prefix + objectName)[|prefix|..] == objectName;
    var read := ObjectNameFromUri(uri, bucket);
    assert BuildGsUri(bucket, read) == prefix + read;
    if Prefix(bucket) <= uri {
      assert prefix + uri[|prefix|..] == uri;
    } else {
      assert |prefix + read| > |uri|;
    }
  }
}
