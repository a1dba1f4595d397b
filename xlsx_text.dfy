/**
 * Decimal text as the XLSX factory produces and reads it: the rendering of a
 * non-negative number inside a template string, `parseInt(s, 10)` on the
 * digit strings the factory itself wrote, and the `_k` suffixes used to make
 * sheet names unique.
 */
module XlsxText {
  import opened Options
  import opened Seqs

  predicate IsDigit(c: char)
  {
    '0' <= c <= '9'
  }

  function DigitChar(d: nat): (c: char)
    requires d < 10
    ensures IsDigit(c) && c as int - '0' as int == d
  {
    ('0' as int + d) as char
  }

  /** The decimal rendering of `n` (`${n}`): no sign, no leading zero. */
  function Digits(n: nat): (s: string)
    ensures 1 <= |s|
    ensures forall i :: 0 <= i < |s| ==> IsDigit(s[i])
    ensures 1 < |s| ==> s[0] != '0'
    decreases n
  {
    if n < 10 then [DigitChar(n)] else Digits(n / 10) + [DigitChar(n % 10)]
  }

  /** The value of a string of decimal digits, most significant first. */
  function DigitsValue(s: string): nat
    requires forall i :: 0 <= i < |s| ==> IsDigit(s[i])
  {
    if s == [] then 0
    else assert IsDigit(s[|s| - 1]); DigitsValue(s[..|s| - 1]) * 10 + (s[|s| - 1] as int - '0' as int)
  }

  /**
   * `parseInt(s, 10)` on a non-empty string made only of digits, the only
   * strings the suffix search reads back. Other strings are outside the
   * model and give `None`; `parseInt` itself would read a sign, leading
   * whitespace or a digit prefix from some of them.
   */
  function ParseDecimal(s: string): (r: Option<nat>)
    ensures r.Some? <==> 0 < |s| && forall i :: 0 <= i < |s| ==> IsDigit(s[i])
  {
    if 0 < |s| && forall i :: 0 <= i < |s| ==> IsDigit(s[i]) then Some(DigitsValue(s)) else None
  }

  /** Reading back a rendered number gives the number. */
  lemma {:induction false} ParseDigits(n: nat)
    ensures ParseDecimal(Digits(n)) == Some(n)
    decreases n
  {
    var s := Digits(n);
    if n < 10 {
      assert s[..|s| - 1] == [];
    } else {
      ParseDigits(n / 10);
      assert s[..|s| - 1] == Digits(n / 10);
      assert DigitsValue(s) == (n / 10) * 10 + n % 10;
    }
  }

  /** Different numbers render differently. */
  lemma DigitsInjective(a: nat, b: nat)
    ensures Digits(a) == Digits(b) ==> a == b
  {
    ParseDigits(a);
    ParseDigits(b);
  }

  // ---------------------------------------------------------------------------
  // Sheet-name suffixes

  /** The suffix tried on the k-th attempt: none first, then `_1`, `_2`, ... */
  function Suffix(k: nat): (s: string)
    ensures k == 0 <==> s == []
  {
    if k == 0 then "" else "_" + Digits(k)
  }

  /**
   * The suffix loop's step: after no suffix comes `_1`; after `_k`, reading
   * back the number after the underscore and adding one gives `_<k+1>`.
   */
  lemma SuffixStep(k: nat)
    ensures Suffix(1) == "_1"
    ensures 0 < k ==> Suffix(k)[0] == '_' && ParseDecimal(Suffix(k)[1..]) == Some(k)
    ensures 0 < k ==> "_" + Digits(k + 1) == Suffix(k + 1)
  {
    assert DigitChar(1) == '1';
    if 0 < k {
      assert Suffix(k)[1..] == Digits(k);
      ParseDigits(k);
    }
  }

  /** Different attempts give different candidate names. */
  lemma CandidateInjective(name: string, a: nat, b: nat)
    ensures name + Suffix(a) == name + Suffix(b) ==> a == b
  {
    if name + Suffix(a) == name + Suffix(b) {
      assert Suffix(a) == (name + Suffix(a))[|name|..];
      assert Suffix(b) == (name + Suffix(b))[|name|..];
      if a != 0 && b != 0 {
        assert Digits(a) == Suffix(a)[1..];
        assert Digits(b) == Suffix(b)[1..];
        DigitsInjective(a, b);
      }
    }
  }

  /** The first k candidate names, as a set. */
  function Candidates(name: string, k: nat): set<string>
  {
    set j | 0 <= j < k :: name + Suffix(j)
  }

  lemma {:induction false} CandidatesCard(name: string, k: nat)
    ensures |Candidates(name, k)| == k
  {
    if k > 0 {
      CandidatesCard(name, k - 1);
      assert Candidates(name, k) == Candidates(name, k - 1) + {name + Suffix(k - 1)};
      if name + Suffix(k - 1) in Candidates(name, k - 1) {
        var j :| 0 <= j < k - 1 && name + Suffix(j) == name + Suffix(k - 1);
        CandidateInjective(name, j, k - 1);
      }
    }
  }

  lemma {:induction false} ElemsCard<T>(s: seq<T>)
    ensures |Elems(s)| <= |s|
  {
    if s != [] {
      ElemsCard(s[..|s| - 1]);
      assert Elems(s) == Elems(s[..|s| - 1]) + {s[|s| - 1]} by {
        assert s == s[..|s| - 1] + [s[|s| - 1]];
      }
    }
  }

  lemma SubsetCard<T>(a: set<T>, b: set<T>)
    requires a <= b
    ensures |a| <= |b|
  {
    assert b == a + (b - a);
  }

  /**
   * Pigeonhole: if the first k candidate names are all taken, the list of
   * taken names has at least k entries. This is why the suffix search ends.
   */
  lemma CandidatesBound(name: string, names: seq<string>, k: nat)
    requires forall j :: 0 <= j < k ==> name + Suffix(j) in names
    ensures k <= |names|
  {
    CandidatesCard(name, k);
    ElemsCard(names);
    SubsetCard(Candidates(name, k), Elems(names));
  }
}
