/**
 Digests and keys as the counterexample needs them exist: a numbering of ascendancies and key sets
 without collisions that leaves other numbers over, for the old keys that digest nothing.
 */
module FamilyHash {
  import opened FamilyModel
  import opened FamilyMerge
  import opened FamilyCounterexample

  function Pair(a: nat, b: nat): nat {
    if a == 0 then 2 * b + 1 else 2 * Pair(a - 1, b)
  }

  lemma {:induction false} PairInjective(a: nat, b: nat, c: nat, d: nat)
    requires Pair(a, b) == Pair(c, d)
    ensures a == c && b == d
  {
    if a > 0 && c > 0 {
      PairInjective(a - 1, b, c - 1, d);
    }
  }

  function TextCode(s: string): nat {
    if s == [] then 0 else Pair(s[0] as int, TextCode(s[1..])) + 1
  }

  lemma {:induction false} TextInjective(s: string, t: string)
    requires TextCode(s) == TextCode(t)
    ensures s == t
  {
    if s != [] && t != [] {
      PairInjective(s[0] as int, TextCode(s[1..]), t[0] as int, TextCode(t[1..]));
      TextInjective(s[1..], t[1..]);
      assert s == [s[0]] + s[1..] && t == [t[0]] + t[1..];
    }
  }

  /** The number of a skill key; a token's rank may be negative. */
  function KeyCode(k: SkillKey): nat {
    Pair(TextCode(k.name), if k.token.rank >= 0 then 2 * k.token.rank else -2 * k.token.rank - 1)
  }

  lemma KeyInjective(k: SkillKey, l: SkillKey)
    requires KeyCode(k) == KeyCode(l)
    ensures k == l
  {
    PairInjective(TextCode(k.name), if k.token.rank >= 0 then 2 * k.token.rank else -2 * k.token.rank - 1,
                  TextCode(l.name), if l.token.rank >= 0 then 2 * l.token.rank else -2 * l.token.rank - 1);
    TextInjective(k.name, l.name);
  }

  ghost predicate HasCode(keys: set<SkillKey>, i: nat) {
    exists k :: k in keys && KeyCode(k) == i
  }

  ghost predicate Above(keys: set<SkillKey>, n: nat) {
    forall k | k in keys :: KeyCode(k) < n
  }

  /** The set as a binary number, one digit for each possible code below n. */
  ghost function Digits(keys: set<SkillKey>, n: nat): nat {
    if n == 0 then 0 else 2 * Digits(keys, n - 1) + if HasCode(keys, n - 1) then 1 else 0
  }

  lemma {:induction false} SomeAbove(keys: set<SkillKey>) returns (n: nat)
    ensures Above(keys, n)
  {
    if keys == {} {
      n := 0;
    } else {
      var k :| k in keys;
      var m := SomeAbove(keys - {k});
      n := m + KeyCode(k) + 1;
      forall l | l in keys ensures KeyCode(l) < n {
        if l != k {
          assert l in keys - {k};
        }
      }
    }
  }

  lemma BoundExists(keys: set<SkillKey>)
    ensures exists n :: Above(keys, n)
  {
    var n := SomeAbove(keys);
  }

  ghost function Bound(keys: set<SkillKey>): (n: nat)
    ensures Above(keys, n)
  {
    BoundExists(keys);
    var n :| Above(keys, n);
    n
  }

  lemma {:induction false} DigitsAgree(s: set<SkillKey>, t: set<SkillKey>, n: nat, i: nat)
    requires Digits(s, n) == Digits(t, n) && i < n
    ensures HasCode(s, i) <==> HasCode(t, i)
  {
    if i < n - 1 {
      DigitsAgree(s, t, n - 1, i);
    }
  }

  ghost function SetCode(keys: set<SkillKey>): nat {
    Pair(Bound(keys), Digits(keys, Bound(keys)))
  }

  lemma SetIncluded(s: set<SkillKey>, t: set<SkillKey>)
    requires SetCode(s) == SetCode(t)
    ensures s <= t
  {
    PairInjective(Bound(s), Digits(s, Bound(s)), Bound(t), Digits(t, Bound(t)));
    forall k | k in s ensures k in t {
      assert HasCode(s, KeyCode(k));
      DigitsAgree(s, t, Bound(s), KeyCode(k));
      var l :| l in t && KeyCode(l) == KeyCode(k);
      KeyInjective(k, l);
    }
  }

  /** Even numbers only. */
  ghost function Numbered(ascendancy: string, keys: set<SkillKey>): nat {
    2 * Pair(TextCode(ascendancy), SetCode(keys))
  }

  lemma NumberedInjective(a: string, s: set<SkillKey>, b: string, t: set<SkillKey>)
    requires Numbered(a, s) == Numbered(b, t)
    ensures a == b && s == t
  {
    PairInjective(TextCode(a), SetCode(s), TextCode(b), SetCode(t));
    TextInjective(a, b);
    SetIncluded(s, t);
    SetIncluded(t, s);
  }

  /** A digest without collisions, and six keys, with which RecordLosesCover applies. */
  lemma SomeNamesFit() returns (hash: KeyHash, n: Names)
    ensures Fitting(hash, n)
  {
    hash := (a: string, s: set<SkillKey>) => Numbered(a, s);
    forall a, s, b, t | hash(a, s) == hash(b, t) ensures a == b && s == t {
      NumberedInjective(a, s, b, t);
    }
    assert Injective(hash);
    n := Names(hash("m", AB), hash("m", AB) + 1, -1, -2, -3, hash("m", ZAB));
    forall a, s ensures hash(a, s) != n.k2 && hash(a, s) >= 0 {
      assert hash(a, s) == 2 * Pair(TextCode(a), SetCode(s));
    }
  }
}
