/** Distinct extra-repository names for the entries of the OCA catalogue. */
module OcaCatalog {
  import opened Counting
  import opened Numerals

  const NAME_MAX := 63
  /** A hyphen and the number have to fit into a name. */
  const DIGITS_MAX := 62

  predicate IsPlainChar(c: char) {
    'a' <= c <= 'z' || 'A' <= c <= 'Z' || '0' <= c <= '9' || c == '_' || c == '-'
  }

  function Sanitised(name: string): (s: string)
    ensures |s| == |name|
  {
    if name == "" then "" else [if IsPlainChar(name[0]) then name[0] else '-'] + Sanitised(name[1..])
  }

  function Stem(name: string): string {
    "oca-" + Sanitised(name)
  }

  /** Such a name needs neither sanitising nor truncation. */
  predicate Exact(name: string) {
    Stem(name) == "oca-" + name && |Stem(name)| <= NAME_MAX
  }

  function Take(s: string, n: nat): string {
    if |s| <= n then s else s[..n]
  }

  /** Python's `s[:k]`: a negative bound counts from the end. */
  function Upto(s: string, k: int): string {
    if k >= 0 then Take(s, k) else if |s| + k > 0 then s[..|s| + k] else ""
  }

  function Candidate(base: string, number: nat): (c: string)
    ensures |base| <= NAME_MAX && |Digits(number)| <= DIGITS_MAX ==> |c| <= NAME_MAX
  {
    if number == 1 then base else Upto(base, NAME_MAX - 1 - |Digits(number)|) + "-" + Digits(number)
  }

  /** Truncation cannot make two numbered candidates equal. */
  lemma CandidatesDiffer(base: string, a: nat, b: nat)
    requires 2 <= a && 2 <= b && Candidate(base, a) == Candidate(base, b)
    ensures a == b
  {
    SuffixInjective(Upto(base, NAME_MAX - 1 - |Digits(a)|), a, Upto(base, NAME_MAX - 1 - |Digits(b)|), b);
  }

  ghost function Tried(base: string, number: nat): set<string> {
    set k | 2 <= k <= number :: Candidate(base, k)
  }

  /** So many numbered candidates are so many names. */
  lemma {:induction false} TriedSize(base: string, number: nat)
    requires 1 <= number
    ensures |Tried(base, number)| == number - 1
  {
    hide Candidate;
    if number > 1 {
      TriedSize(base, number - 1);
      assert Tried(base, number) == Tried(base, number - 1) + {Candidate(base, number)};
      forall k | 2 <= k <= number - 1 ensures Candidate(base, k) != Candidate(base, number) {
        if Candidate(base, k) == Candidate(base, number) {
          CandidatesDiffer(base, k, number);
        }
      }
    } else {
      assert Tried(base, number) == {};
    }
  }

  /** The first free name for one entry; at most one numbered try more than there are taken names. */
  method FreeName(base: string, taken: set<string>) returns (candidate: string, number: nat)
    ensures candidate !in taken
    ensures 1 <= number <= |taken| + 2 && candidate == Candidate(base, number)
    ensures forall k | 1 <= k < number :: Candidate(base, k) in taken
    ensures |base| <= NAME_MAX && Fits(|taken| + 2) ==> |candidate| <= NAME_MAX
  {
    hide Candidate, Fits;
    candidate, number := base, 1;
    assert candidate == Candidate(base, number) by { FirstCandidate(base); }
    while candidate in taken
      invariant 1 <= number <= |taken| + 2 && candidate == Candidate(base, number)
      invariant forall k | 1 <= k < number :: Candidate(base, k) in taken
      decreases |taken| + 2 - number
    {
      TriedSize(base, number);
      SubsetSize(Tried(base, number), taken);
      number := number + 1;
      candidate := Candidate(base, number);
    }
    if Fits(|taken| + 2) {
      SmallerFits(number, |taken| + 2);
    }
  }

  lemma FirstCandidate(base: string)
    ensures Candidate(base, 1) == base
  {
  }

  /** The number can be written behind a hyphen within a name. */
  predicate Fits(number: nat) {
    number < Power(DIGITS_MAX)
  }

  lemma SmallerFits(a: nat, b: nat)
    requires a <= b && Fits(b)
    ensures Fits(a) && |Digits(a)| <= DIGITS_MAX
  {
    DigitsShort(a, DIGITS_MAX);
  }

  // ---- the order in which names are given out ----------------------------------------------

  predicate StringLeq(a: string, b: string) {
    a == "" || (b != "" && (a[0] < b[0] || (a[0] == b[0] && StringLeq(a[1..], b[1..]))))
  }

  lemma {:induction false} StringsCompare(a: string, b: string)
    ensures StringLeq(a, b) || StringLeq(b, a)
  {
    if a != "" && b != "" && a[0] == b[0] {
      StringsCompare(a[1..], b[1..]);
    }
  }

  lemma {:induction false} StringsChain(a: string, b: string, c: string)
    requires StringLeq(a, b) && StringLeq(b, c)
    ensures StringLeq(a, c)
  {
    if a != "" && a[0] == b[0] && b[0] == c[0] {
      StringsChain(a[1..], b[1..], c[1..]);
    }
  }

  /** Entries that keep their plain name first, by name among equals. */
  predicate Before(a: string, b: string) {
    if Exact(a) == Exact(b) then StringLeq(a, b) else Exact(a)
  }

  ghost predicate Ordered(names: seq<string>) {
    forall i, j | 0 <= i < j < |names| :: Before(names[i], names[j])
  }

  function Inserted(name: string, names: seq<string>): (r: seq<string>)
    ensures multiset(r) == multiset(names) + multiset{name}
  {
    if names == [] || Before(name, names[0]) then [name] + names
    else
      assert names == [names[0]] + names[1..];
      [names[0]] + Inserted(name, names[1..])
  }

  lemma {:induction false} InsertedIsOrdered(name: string, names: seq<string>)
    requires Ordered(names)
    ensures Ordered(Inserted(name, names))
  {
    hide Exact, StringLeq;
    if names != [] {
      if Before(name, names[0]) {
        forall j | 0 <= j < |names| ensures Before(name, names[j]) {
          if j > 0 {
            BeforeChains(name, names[0], names[j]);
          }
        }
      } else {
        BeforeCompares(name, names[0]);
        InsertedIsOrdered(name, names[1..]);
        var rest := Inserted(name, names[1..]);
        forall x | x in rest ensures Before(names[0], x) {
          assert x in multiset(rest);
          assert x == name || x in names[1..];
        }
        assert forall i | 0 <= i < |rest| :: rest[i] in rest;
      }
    }
  }

  lemma BeforeCompares(a: string, b: string)
    ensures Before(a, b) || Before(b, a)
  {
    StringsCompare(a, b);
  }

  lemma BeforeChains(a: string, b: string, c: string)
    requires Before(a, b) && Before(b, c)
    ensures Before(a, c)
  {
    if StringLeq(a, b) && StringLeq(b, c) {
      StringsChain(a, b, c);
    }
  }

  function Sorted(names: seq<string>): (r: seq<string>)
    ensures multiset(r) == multiset(names)
  {
    if names == [] then []
    else
      assert names == [names[0]] + names[1..];
      Inserted(names[0], Sorted(names[1..]))
  }

  lemma {:induction false} SortedIsOrdered(names: seq<string>)
    ensures Ordered(Sorted(names))
  {
    if names != [] {
      SortedIsOrdered(names[1..]);
      InsertedIsOrdered(names[0], Sorted(names[1..]));
    }
  }

  /** Entries that keep their plain name come first. */
  predicate ExactFirst(sorted: seq<string>) {
    forall i, j | 0 <= i < j < |sorted| :: Exact(sorted[j]) ==> Exact(sorted[i])
  }

  /** Import names for the catalogue's entries, which are distinct. */
  method AssignImportNames(entries: seq<string>) returns (names: map<string, string>)
    requires Distinct(entries)
    ensures names.Keys == set n | n in entries
    ensures forall a, b | a in names && b in names && names[a] == names[b] :: a == b
    ensures forall n | n in names && Exact(n) :: names[n] == "oca-" + n
    ensures Fits(|entries| + 2) ==> forall n | n in names :: |names[n]| <= NAME_MAX
  {
    hide Exact, Sorted;
    var sorted := Sorted(entries);
    SortedIsOrdered(entries);
    OrderedIsExactFirst(sorted);
    SameEntries(entries, sorted);
    names := AssignInOrder(sorted);
  }

  ghost predicate Distinct(entries: seq<string>) {
    forall i, j | 0 <= i < j < |entries| :: entries[i] != entries[j]
  }

  lemma OrderedIsExactFirst(names: seq<string>)
    requires Ordered(names)
    ensures ExactFirst(names)
  {
    forall i, j | 0 <= i < j < |names| && Exact(names[j]) ensures Exact(names[i]) {
      assert Before(names[i], names[j]);
    }
  }

  lemma SameEntries(a: seq<string>, b: seq<string>)
    requires Distinct(a) && multiset(b) == multiset(a)
    ensures Distinct(b) && |b| == |a| && (set n | n in b) == (set n | n in a)
  {
    assert |multiset(a)| == |multiset(b)|;
    forall n ensures n in a <==> n in b {
      assert n in multiset(a) <==> n in multiset(b);
    }
    forall n ensures multiset(a)[n] <= 1 {
      DistinctIsOnce(a, n);
    }
    forall i, j | 0 <= i < j < |b| ensures b[i] != b[j] {
      TwiceIsTwo(b, i, j);
    }
  }

  lemma {:induction false} DistinctIsOnce(a: seq<string>, n: string)
    requires Distinct(a)
    ensures multiset(a)[n] <= 1
  {
    if a != [] {
      assert a == [a[0]] + a[1..];
      DistinctIsOnce(a[1..], n);
      assert a[0] !in a[1..];
    }
  }

  lemma TwiceIsTwo(b: seq<string>, i: nat, j: nat)
    requires i < j < |b|
    ensures b[i] == b[j] ==> multiset(b)[b[i]] >= 2
  {
    assert b == b[..i] + [b[i]] + b[i + 1..j] + [b[j]] + b[j + 1..];
  }

  method AssignInOrder(sorted: seq<string>) returns (names: map<string, string>)
    requires ExactFirst(sorted) && Distinct(sorted)
    ensures names.Keys == set n | n in sorted
    ensures forall a, b | a in names && b in names && names[a] == names[b] :: a == b
    ensures forall n | n in names && Exact(n) :: names[n] == "oca-" + n
    ensures Fits(|sorted| + 2) ==> forall n | n in names :: |names[n]| <= NAME_MAX
  {
    hide Stem, Exact, Candidate, Take, Fits, Named, Distinct, ExactFirst;
    names := map[];
    var taken: set<string> := {};
    NothingNamed();
    for i := 0 to |sorted|
      invariant names.Keys == set n | n in sorted[..i]
      invariant Named(names, taken) && |taken| <= i
      invariant Fits(|sorted| + 2) ==> forall n | n in names :: |names[n]| <= NAME_MAX
    {
      var name := sorted[i];
      assert sorted[..i + 1] == sorted[..i] + [name];
      assert name !in names by { NotBefore(sorted, i); }
      BaseIsShort(name);
      var candidate: string, number: nat;
      candidate, number := FreeName(Take(Stem(name), NAME_MAX), taken);
      if Fits(|sorted| + 2) {
        SmallerFits(|taken| + 2, |sorted| + 2);
      }
      if Exact(name) {
        NotBefore(sorted, i);
        PlainNameIsFree(sorted, i, names, taken);
        ExactIsPlain(name, number, candidate, taken);
      }
      OneMoreName(names, taken, name, candidate);
      taken := taken + {candidate};
      names := names[name := candidate];
    }
    assert sorted[..|sorted|] == sorted;
    NamedMeans(names, taken);
  }

  lemma NotBefore(sorted: seq<string>, i: nat)
    requires Distinct(sorted) && i < |sorted|
    ensures sorted[i] !in sorted[..i] && forall j | 0 <= j < i :: sorted[j] != sorted[i]
  {
  }

  lemma NothingNamed()
    ensures Named(map[], {})
  {
  }

  lemma NamedMeans(names: map<string, string>, taken: set<string>)
    requires Named(names, taken)
    ensures forall a, b | a in names && b in names && names[a] == names[b] :: a == b
    ensures forall n | n in names && Exact(n) :: names[n] == "oca-" + n
  {
  }

  /** Names given out so far: distinct, and plain where they can be. */
  ghost predicate Named(names: map<string, string>, taken: set<string>) {
    && (forall n | n in names :: names[n] in taken)
    && (forall c | c in taken :: exists n | n in names :: names[n] == c)
    && (forall a, b | a in names && b in names && names[a] == names[b] :: a == b)
    && (forall n | n in names && Exact(n) :: names[n] == "oca-" + n)
  }

  lemma BaseIsShort(name: string)
    ensures |Take(Stem(name), NAME_MAX)| <= NAME_MAX
  {
  }

  lemma ExactIsPlain(name: string, number: nat, candidate: string, taken: set<string>)
    requires Exact(name) && Stem(name) !in taken && 1 <= number
    requires candidate == Candidate(Take(Stem(name), NAME_MAX), number)
    requires forall k | 1 <= k < number :: Candidate(Take(Stem(name), NAME_MAX), k) in taken
    ensures candidate == "oca-" + name
  {
    assert Candidate(Take(Stem(name), NAME_MAX), 1) == Stem(name);
  }

  lemma OneMoreName(names: map<string, string>, taken: set<string>, name: string, candidate: string)
    requires Named(names, taken) && name !in names && candidate !in taken
    requires Exact(name) ==> candidate == "oca-" + name
    ensures Named(names[name := candidate], taken + {candidate})
  {
    var more := names[name := candidate];
    forall c | c in taken + {candidate} ensures exists n | n in more :: more[n] == c {
      if c == candidate {
        assert more[name] == c;
      } else {
        var n :| n in names && names[n] == c;
        assert more[n] == c;
      }
    }
  }

  lemma PlainNameIsFree(sorted: seq<string>, i: nat, names: map<string, string>, taken: set<string>)
    requires i < |sorted| && ExactFirst(sorted) && Exact(sorted[i])
    requires forall j | 0 <= j < i :: sorted[j] != sorted[i]
    requires names.Keys == (set n | n in sorted[..i]) && Named(names, taken)
    ensures Stem(sorted[i]) !in taken
  {
    forall n | n in names ensures names[n] != Stem(sorted[i]) {
      var j :| 0 <= j < i && sorted[j] == n;
      assert Exact(n);
      assert ("oca-" + n)[4..] == n && ("oca-" + sorted[i])[4..] == sorted[i];
    }
  }
}
