/** `UniqueNamesFactory`: hands out object names that are unique per prefix. Candidates are the
  * prefix itself, then the prefix followed by 0, 1, 2, ... in decimal (`QString::number`). */
module UniqueNames {

  /** The decimal digit of `d`. */
  function Digit(d: nat): char
    requires d < 10
  {
    "0123456789"[d]
  }

  /** `QString::number(n)` for a non-negative `n`. */
  function Decimal(n: nat): (s: string)
    ensures |s| >= 1
    ensures (|s| == 1) == (n < 10)
  {
    if n < 10 then [Digit(n)] else Decimal(n / 10) + [Digit(n % 10)]
  }

  lemma DigitInjective(a: nat, b: nat)
    requires a < 10 && b < 10 && Digit(a) == Digit(b)
    ensures a == b
  {
  }

  /** Different numbers have different decimal representations. */
  lemma {:induction false} DecimalInjective(a: nat, b: nat)
    requires Decimal(a) == Decimal(b)
    ensures a == b
  {
    if a < 10 || b < 10 {
      assert a < 10 && b < 10;
      DigitInjective(a, b);
    } else {
      var da, db := Decimal(a), Decimal(b);
      assert da[|da| - 1] == Digit(a % 10) && db[|db| - 1] == Digit(b % 10);
      DigitInjective(a % 10, b % 10);
      assert da[..|da| - 1] == Decimal(a / 10);
      assert db[..|db| - 1] == Decimal(b / 10);
      DecimalInjective(a / 10, b / 10);
    }
  }

  /** The candidate tried after `i` failures: the prefix, then `prefix + number(i - 1)`. */
  function Candidate(prefix: string, i: nat): string
  {
    if i == 0 then prefix else prefix + Decimal(i - 1)
  }

  lemma CandidatesDistinct(prefix: string, i: nat, j: nat)
    requires i != j
    ensures Candidate(prefix, i) != Candidate(prefix, j)
  {
    if i == 0 || j == 0 {
      var k := if i == 0 then j else i;
      assert |Candidate(prefix, k)| == |prefix| + |Decimal(k - 1)| > |prefix|;
    } else {
      var ci, cj := prefix + Decimal(i - 1), prefix + Decimal(j - 1);
      if ci == cj {
        assert ci[|prefix|..] == Decimal(i - 1);
        assert cj[|prefix|..] == Decimal(j - 1);
        DecimalInjective(i - 1, j - 1);
      }
    }
  }

  /** The first `n` candidates, as a set. */
  function Tried(prefix: string, n: nat): set<string>
  {
    set i | 0 <= i < n :: Candidate(prefix, i)
  }

  lemma {:induction false} TriedSize(prefix: string, n: nat)
    ensures |Tried(prefix, n)| == n
  {
    if n > 0 {
      TriedSize(prefix, n - 1);
      assert Tried(prefix, n) == Tried(prefix, n - 1) + {Candidate(prefix, n - 1)};
      forall i | 0 <= i < n - 1
        ensures Candidate(prefix, i) != Candidate(prefix, n - 1)
      {
        CandidatesDistinct(prefix, i, n - 1);
      }
    } else {
      assert Tried(prefix, 0) == {};
    }
  }

  class Factory {
    /** `_used_names`: prefix -> names already handed out for it. */
    var usedNames: map<string, set<string>>

    constructor ()
      ensures usedNames == map[]
    {
      usedNames := map[];
    }

    /** The names handed out so far for `prefix`. */
    function Used(prefix: string): set<string> reads this
    {
      if prefix in usedNames then usedNames[prefix] else {}
    }

    /** `_unique_name(prefix)`: the first candidate not yet used for `prefix`, which is then
      * recorded as used. */
    method UniqueName(prefix: string) returns (name: string)
      modifies this
      ensures name !in old(Used(prefix))
      ensures exists k: nat :: name == Candidate(prefix, k) &&
                forall j: nat :: j < k ==> Candidate(prefix, j) in old(Used(prefix))
      ensures old(Used(prefix)) == {} ==> name == prefix
      ensures Used(prefix) == old(Used(prefix)) + {name}
      ensures |Used(prefix)| == |old(Used(prefix))| + 1
      ensures forall p :: p != prefix ==> Used(p) == old(Used(p))
      ensures usedNames.Keys == old(usedNames.Keys) + {prefix}
    {
      if prefix !in usedNames {
        usedNames := usedNames[prefix := {}];
      }
      var used := usedNames[prefix];
      ghost var registered := usedNames;
      name := prefix;
      var i: nat := 0;
      while name in used
        invariant usedNames == registered
        invariant name == Candidate(prefix, i)
        invariant Tried(prefix, i) <= used
        decreases |used| - i
      {
        TriedSize(prefix, i + 1);
        assert Tried(prefix, i + 1) == Tried(prefix, i) + {name};
        assert Tried(prefix, i + 1) <= used;
        assert i + 1 <= |used| by {
          SubsetSize(Tried(prefix, i + 1), used);
        }
        name := prefix + Decimal(i);
        i := i + 1;
      }
      assert forall j: nat :: j < i ==> Candidate(prefix, j) in Tried(prefix, i);
      usedNames := usedNames[prefix := used + {name}];
    }
  }

  lemma SubsetSize<T>(a: set<T>, b: set<T>)
    requires a <= b
    ensures |a| <= |b|
  {
    assert b == a + (b - a);
  }

  /** The first name for a fresh prefix is the prefix; a prefix whose bare name is taken gets
    * `prefix + "0"` next. */
  lemma FirstCandidates(prefix: string)
    ensures Candidate(prefix, 0) == prefix && Candidate(prefix, 1) == prefix + "0"
    ensures Candidate(prefix, 11) == prefix + "10"
  {
    assert Decimal(10) == Decimal(1) + [Digit(0)];
  }
}
