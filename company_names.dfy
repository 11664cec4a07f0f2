/**
 * `clean_company_name`: the legal-form prefixes are tried longest first,
 * and the first one the name starts with is cut off, with the whitespace
 * around the rest; at most one prefix is removed.
 */
module CompanyNames {
  import opened Text

  /**
   * The legal forms, in the order the source lists them ("Công ty CP",
   * "Công ty Cổ phần", "Công ty TNHH", "Tập đoàn", "Ngân hàng TMCP",
   * "Ngân hàng", "Công ty"), written with precomposed code points.
   */
  function LegalPrefixes(): seq<string>
  {
    [ "C\U{F4}ng ty CP",
      "C\U{F4}ng ty C\U{1ED5} ph\U{1EA7}n",
      "C\U{F4}ng ty TNHH",
      "T\U{1EAD}p \U{111}o\U{E0}n",
      "Ng\U{E2}n h\U{E0}ng TMCP",
      "Ng\U{E2}n h\U{E0}ng",
      "C\U{F4}ng ty" ]
  }

  /** Longer strings come first. */
  predicate LongestFirst(s: seq<string>)
  {
    forall i, j :: 0 <= i < j < |s| ==> |s[i]| >= |s[j]|
  }

  /**
   * Insertion of `x` into a longest-first list after every string at least
   * as long, which keeps equally long strings in their original order.
   */
  function InsertByLength(x: string, s: seq<string>): (r: seq<string>)
    requires LongestFirst(s)
    ensures multiset(r) == multiset(s) + multiset{x}
    ensures LongestFirst(r)
  {
    if s == [] then [x]
    else if |s[0]| >= |x| then
      var rest := InsertByLength(x, s[1..]);
      assert s == [s[0]] + s[1..];
      NoLongerThan(rest, s[1..], x, |s[0]|);
      LongestFirstCons(s[0], rest);
      [s[0]] + rest
    else
      LongestFirstCons(x, s);
      [x] + s
  }

  lemma LongestFirstCons(h: string, t: seq<string>)
    requires LongestFirst(t) && forall j :: 0 <= j < |t| ==> |t[j]| <= |h|
    ensures LongestFirst([h] + t)
  {
    var r := [h] + t;
    forall i, j | 0 <= i < j < |r| ensures |r[i]| >= |r[j]| {
      assert r[j] == t[j - 1];
      if i > 0 {
        assert r[i] == t[i - 1];
      }
    }
  }

  /** A rearrangement of `t` and `x` holds nothing longer than they do. */
  lemma NoLongerThan(r: seq<string>, t: seq<string>, x: string, bound: nat)
    requires multiset(r) == multiset(t) + multiset{x}
    requires |x| <= bound && forall k :: 0 <= k < |t| ==> |t[k]| <= bound
    ensures forall j :: 0 <= j < |r| ==> |r[j]| <= bound
  {
    forall j | 0 <= j < |r| ensures |r[j]| <= bound {
      assert r[j] in multiset(r);
      if r[j] != x {
        assert r[j] in multiset(t);
        var k :| 0 <= k < |t| && t[k] == r[j];
      }
    }
  }

  /** `list.sort(key=len, reverse=True)`: a stable sort by decreasing length. */
  function SortByLength(s: seq<string>): (r: seq<string>)
    ensures multiset(r) == multiset(s)
    ensures LongestFirst(r)
  {
    if s == [] then []
    else
      var n := |s| - 1;
      assert s == s[..n] + [s[n]];
      InsertByLength(s[n], SortByLength(s[..n]))
  }

  /**
   * `clean_company_name`: the name without its longest legal-form prefix
   * and the whitespace around the rest, or unchanged when it has none.
   */
  method CleanCompanyName(name: string) returns (cleaned: string)
    ensures (forall q :: q in LegalPrefixes() ==> !(q <= name)) ==> cleaned == name
    ensures (exists q :: q in LegalPrefixes() && q <= name) ==>
      exists q :: q in LegalPrefixes() && q <= name && cleaned == Strip(name[|q|..])
        && forall q' :: q' in LegalPrefixes() && q' <= name ==> |q'| <= |q|
  {
    var prefixes := SortByLength(LegalPrefixes());
    SameElements(LegalPrefixes(), prefixes);
    cleaned := StripLongestPrefix(prefixes, name);
  }

  lemma SameElements(a: seq<string>, b: seq<string>)
    requires multiset(a) == multiset(b)
    ensures forall q :: q in a <==> q in b
  {
    forall q ensures q in a <==> q in b {
      assert q in a <==> q in multiset(a);
      assert q in b <==> q in multiset(b);
    }
  }

  /**
   * The loop over the sorted prefixes, stopping at the first one the name
   * starts with: that one is cut off, and it is the longest listed prefix
   * of the name.
   */
  method StripLongestPrefix(prefixes: seq<string>, name: string) returns (cleaned: string)
    requires LongestFirst(prefixes)
    ensures (forall q :: q in prefixes ==> !(q <= name)) ==> cleaned == name
    ensures (exists q :: q in prefixes && q <= name) ==>
      exists q :: q in prefixes && q <= name && cleaned == Strip(name[|q|..])
        && forall q' :: q' in prefixes && q' <= name ==> |q'| <= |q|
  {
    cleaned := name;
    var i := 0;
    while i < |prefixes|
      invariant i <= |prefixes|
      invariant forall j :: 0 <= j < i ==> !(prefixes[j] <= name)
    {
      var prefix := prefixes[i];
      if prefix <= name {
        cleaned := Strip(name[|prefix|..]);
        LongestMatch(prefixes, name, i);
        assert prefix in prefixes;
        return;
      }
      i := i + 1;
    }
  }

  /**
   * In a longest-first list, the first entry that `name` starts with is at
   * least as long as every entry it starts with.
   */
  lemma LongestMatch(prefixes: seq<string>, name: string, i: nat)
    requires LongestFirst(prefixes) && i < |prefixes| && prefixes[i] <= name
    requires forall j :: 0 <= j < i ==> !(prefixes[j] <= name)
    ensures forall q :: q in prefixes && q <= name ==> |q| <= |prefixes[i]|
  {
    forall q | q in prefixes && q <= name ensures |q| <= |prefixes[i]| {
      var j :| 0 <= j < |prefixes| && prefixes[j] == q;
      assert j >= i;
    }
  }

  /** Two prefixes of one name of the same length are the same string. */
  lemma EquallyLongPrefixesAgree(a: string, b: string, name: string)
    requires a <= name && b <= name && |a| == |b|
    ensures a == b
  {
    assert a == name[..|a|] && b == name[..|b|];
  }
}
