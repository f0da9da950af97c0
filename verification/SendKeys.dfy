/** The strings that key an external send. The send protocol treats a request hash as the request
    itself and a reference as tagged pending or done; the lemmas here say when that is justified. */
module SendKeys {
  /** What SHA-256 is applied to. SHA-256 itself is taken to be injective. */
  function HashPayload(action: string, key: string, body: string): string {
    action + "\n" + key + "\n" + body
  }

  function EffectKey(action: string): string { "commercial-send:" + action }

  function ReceiptId(effectKey: string): string { "max:" + effectKey }

  function PendingRef(action: string): string { "pending:" + action }

  predicate IsPending(ref: string) { "pending:" <= ref }

  /** Two distinct action ids can be confused under some idempotency key exactly when one of them,
      followed by a newline, begins the other. */
  lemma HashConfusion(a: string, b: string)
    requires a != b
    ensures (exists key, x, y :: HashPayload(a, key, x) == HashPayload(b, key, y))
       <==> a + "\n" <= b || b + "\n" <= a
  {
    if key, x, y :| HashPayload(a, key, x) == HashPayload(b, key, y) {
      if |a| <= |b| {
        ConfusionNeedsPrefix(a, b, key, x, y);
      } else {
        ConfusionNeedsPrefix(b, a, key, y, x);
      }
    }
    if a + "\n" <= b {
      var key, x, y := PrefixConfuses(a, b);
    }
    if b + "\n" <= a {
      var key, x, y := PrefixConfuses(b, a);
      assert HashPayload(a, key, y) == HashPayload(b, key, x);
    }
  }

  lemma ConfusionNeedsPrefix(a: string, b: string, key: string, x: string, y: string)
    requires a != b && |a| <= |b|
    requires HashPayload(a, key, x) == HashPayload(b, key, y)
    ensures a + "\n" <= b
  {
    var p, q := HashPayload(a, key, x), HashPayload(b, key, y);
    assert p[..|a|] == a && q[..|b|] == b;
    if |a| == |b| {
      assert false;
    }
    assert p[|a|] == '\n' && q[|a|] == b[|a|];
    assert b[..|a|] == q[..|b|][..|a|] == q[..|a|];
    assert b[..|a| + 1] == a + "\n";
  }

  lemma PrefixConfuses(a: string, b: string) returns (key: string, x: string, y: string)
    requires a + "\n" <= b
    ensures HashPayload(a, key, x) == HashPayload(b, key, y)
  {
    key := b[|a| + 1..];
    y := "";
    x := key + "\n";
    assert b == a + "\n" + key;
    assert HashPayload(b, key, y) == a + "\n" + key + "\n" + key + "\n" + "";
    assert HashPayload(a, key, x) == a + "\n" + key + "\n" + (key + "\n");
  }

  lemma NewlinePrefix(a: string, b: string)
    requires a + "\n" <= b
    ensures '\n' in b
  {
    assert b[|a|] == '\n';
  }

  /** For action ids without a newline the hash determines the action and the body. */
  lemma HashDeterminesRequest(a: string, b: string, key: string, x: string, y: string)
    requires '\n' !in a && '\n' !in b
    requires HashPayload(a, key, x) == HashPayload(b, key, y)
    ensures a == b && x == y
  {
    if a != b {
      HashConfusion(a, b);
      if a + "\n" <= b {
        NewlinePrefix(a, b);
      } else {
        NewlinePrefix(b, a);
      }
    }
    var n := |a + "\n" + key + "\n"|;
    assert HashPayload(a, key, x)[n..] == x && HashPayload(b, key, y)[n..] == y;
  }

  /** A receipt id is never mistaken for a pending reference, and it names exactly one action. */
  lemma ReferencesAreDistinct(a: string, b: string)
    ensures IsPending(PendingRef(a)) && !IsPending(ReceiptId(EffectKey(b)))
    ensures PendingRef(a) == PendingRef(b) ==> a == b
    ensures ReceiptId(EffectKey(a)) == ReceiptId(EffectKey(b)) ==> a == b
    ensures EffectKey(a) == EffectKey(b) ==> a == b
  {
    var p, q := PendingRef(a), PendingRef(b);
    assert p[8..] == a && q[8..] == b;
    var e, f := EffectKey(a), EffectKey(b);
    assert e[16..] == a && f[16..] == b;
    var r, s := ReceiptId(e), ReceiptId(f);
    assert r[4..] == e && s[4..] == f;
    assert s[0] == 'm' && "pending:"[0] == 'p';
  }
}
