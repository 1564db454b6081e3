/** Step keys: what `UnhashedOp.Hash` feeds to SHA-1, used here as the op's ID. */
module StepKeys {
  import opened Decimal

  /** One call of a step tool: the id it was given and how many calls with that id came before. */
  datatype CallId = CallId(id: string, pos: nat)

  function Key(c: CallId): string {
    if c.pos > 0 then c.id + ":" + Dec(c.pos) else c.id
  }

  lemma LastColon(a: string, digits: string)
    requires Digits(digits)
    ensures var s := a + ":" + digits; s[|a|] == ':' && forall i :: |a| < i < |s| ==> s[i] != ':'
  {
    var s := a + ":" + digits;
    forall i | |a| < i < |s|
      ensures s[i] != ':'
    {
      assert s[i] == digits[i - |a| - 1];
    }
  }

  /** Two suffixed keys are equal only when id and position are: the last colon splits them. */
  lemma SuffixSplits(a: string, m: nat, b: string, n: nat)
    requires a + ":" + Dec(m) == b + ":" + Dec(n)
    ensures a == b && m == n
  {
    var s := a + ":" + Dec(m);
    LastColon(a, Dec(m));
    LastColon(b, Dec(n));
    assert |a| == |b|;
    assert a == s[..|a|] == b;
    assert Dec(m) == s[|a| + 1..] == Dec(n);
    DecInjective(m, n);
  }

  /** Exactly when two calls share a key: they are the same call, or one is the first call of an id
      that spells out the other call's suffixed key. */
  lemma KeyCollisions(a: CallId, b: CallId)
    ensures Key(a) == Key(b) <==>
      a == b
      || (a.pos == 0 && b.pos > 0 && a.id == b.id + ":" + Dec(b.pos))
      || (b.pos == 0 && a.pos > 0 && b.id == a.id + ":" + Dec(a.pos))
  {
    if a.pos > 0 && b.pos > 0 && Key(a) == Key(b) {
      SuffixSplits(a.id, a.pos, b.id, b.pos);
    }
  }

  /** No two calls with ids from `ids` share a key. */
  ghost predicate CollisionFree(ids: iset<string>) {
    forall a: CallId, b: CallId :: a.id in ids && b.id in ids && Key(a) == Key(b) ==> a == b
  }

  /** A set of ids is collision-free exactly when no id is another one's suffixed key. */
  lemma CollisionFreeIff(ids: iset<string>)
    ensures CollisionFree(ids) <==>
      forall id: string, n: nat :: id in ids && n > 0 ==> Key(CallId(id, n)) !in ids
  {
    if CollisionFree(ids) {
      forall id: string, n: nat | id in ids && n > 0
        ensures Key(CallId(id, n)) !in ids
      {
        var whole := CallId(Key(CallId(id, n)), 0);
        assert Key(whole) == Key(CallId(id, n));
      }
    }
    if forall id: string, n: nat :: id in ids && n > 0 ==> Key(CallId(id, n)) !in ids {
      forall a: CallId, b: CallId | a.id in ids && b.id in ids && Key(a) == Key(b)
        ensures a == b
      {
        KeyCollisions(a, b);
        assert a.pos > 0 ==> Key(CallId(a.id, a.pos)) !in ids;
        assert b.pos > 0 ==> Key(CallId(b.id, b.pos)) !in ids;
      }
    }
  }
}
