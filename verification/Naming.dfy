/** Names of derived resources: environment slugs and PostgreSQL identifiers. */
module Naming {

  const MAX_IDENTIFIER := 63

  predicate IsSlugChar(c: char) {
    'a' <= c <= 'z' || 'A' <= c <= 'Z' || '0' <= c <= '9' || c == '_' || c == '-'
  }

  /** ASCII lower case, which is all that is left after the filter. */
  function LowerChar(c: char): char {
    if 'A' <= c <= 'Z' then (c as int - 'A' as int + 'a' as int) as char else c
  }

  function Lower(s: string): (r: string)
    ensures |r| == |s| && forall i | 0 <= i < |s| :: r[i] == LowerChar(s[i])
  {
    if s == "" then "" else [LowerChar(s[0])] + Lower(s[1..])
  }

  function Replaced(s: string, from: char, to: char): (r: string)
    ensures |r| == |s| && forall i | 0 <= i < |s| :: r[i] == if s[i] == from then to else s[i]
  {
    if s == "" then "" else [if s[0] == from then to else s[0]] + Replaced(s[1..], from, to)
  }

  function Filtered(s: string): (r: string)
    ensures |r| <= |s| && forall c | c in r :: IsSlugChar(c) && c in s
  {
    if s == "" then "" else (if IsSlugChar(s[0]) then [s[0]] else "") + Filtered(s[1..])
  }

  function Bounded(s: string, n: nat): string {
    if |s| <= n then s else s[..n]
  }

  function Slugify(name: string): (slug: string)
    ensures |slug| <= MAX_IDENTIFIER && ':' !in slug
  {
    var kept := Filtered(Replaced(name, '/', '-'));
    assert forall c | c in kept :: LowerChar(c) != ':';
    assert forall i | 0 <= i < |kept| :: kept[i] in kept && Lower(kept)[i] != ':';
    Bounded(Lower(kept), MAX_IDENTIFIER)
  }

  function DatabaseName(name: string, team: string): string {
    "oduflow_" + team + "_" + Slugify(name)
  }

  /** PostgreSQL cuts a longer name short without an error (ASCII names, a byte a character). */
  function StoredDatabase(name: string, team: string): string {
    Bounded(DatabaseName(name, team), MAX_IDENTIFIER)
  }

  /** Container and workspace names fold slashes only. */
  function FoldedName(name: string): string {
    Replaced(name, '/', '-')
  }

  /** The key under which an environment is locked; structured keys pass through. */
  function LockKey(key: string): string {
    if ':' in key then key else Slugify(key)
  }

  lemma SameSlug(a: string, b: string, team: string)
    requires DatabaseName(a, team) == DatabaseName(b, team)
    ensures Slugify(a) == Slugify(b)
  {
    var head := "oduflow_" + team + "_";
    assert Slugify(a) == DatabaseName(a, team)[|head|..];
    assert Slugify(b) == DatabaseName(b, team)[|head|..];
  }

  /** Spellings of one environment are locked under one key, whichever resource they share. */
  lemma SameResourceSameLock(a: string, b: string, team: string)
    requires ':' !in a && ':' !in b
    requires DatabaseName(a, team) == DatabaseName(b, team) || FoldedName(a) == FoldedName(b)
    ensures LockKey(a) == LockKey(b)
  {
    if DatabaseName(a, team) == DatabaseName(b, team) {
      SameSlug(a, b, team);
    }
  }

  /** The lock of an environment covers its database against every other name exactly while the name of
      the database is shorter than PostgreSQL's limit. */
  lemma LockCoversDatabaseExactlyWhen(a: string, team: string)
    requires ':' !in a
    ensures (forall b | ':' !in b && StoredDatabase(b, team) == StoredDatabase(a, team) :: LockKey(b) == LockKey(a))
            <==> |DatabaseName(a, team)| < MAX_IDENTIFIER
  {
    hide Slugify;
    if |DatabaseName(a, team)| < MAX_IDENTIFIER {
      forall b | ':' !in b && StoredDatabase(b, team) == StoredDatabase(a, team) ensures LockKey(b) == LockKey(a) {
        SameSlug(a, b, team);
      }
    } else {
      var b := CutShort(a, team);
      assert LockKey(b) != LockKey(a);
    }
  }

  /** A name that a long one shares its database with, under another lock. */
  lemma CutShort(a: string, team: string) returns (b: string)
    requires |DatabaseName(a, team)| >= MAX_IDENTIFIER
    ensures ':' !in b && Slugify(b) != Slugify(a) && StoredDatabase(b, team) == StoredDatabase(a, team)
  {
    var head, s := "oduflow_" + team + "_", Slugify(a);
    var k := if |head| <= MAX_IDENTIFIER then MAX_IDENTIFIER - |head| else 0;
    b := s[..k] + (if |s| > k && s[k] == 'x' then "y" else "x");
    SlugChars(a);
    SlugOfSlug(b);
    hide Slugify;
    assert b[k] != 'x' || |s| <= k || s[k] != 'x';
    assert (head + b)[..MAX_IDENTIFIER] == (head + s)[..MAX_IDENTIFIER];
  }

  /** A structured key never meets an environment, and canonicalising twice changes nothing. */
  lemma StructuredKeysApart(key: string, name: string)
    ensures ':' in key && ':' !in name ==> LockKey(key) != LockKey(name)
    ensures LockKey(LockKey(key)) == LockKey(key)
  {
    if ':' !in key {
      SlugIsFixed(key);
    }
  }

  lemma {:induction false} FilterKeeps(s: string)
    requires forall c | c in s :: IsSlugChar(c)
    ensures Filtered(s) == s
  {
    if s != "" {
      assert s[0] in s;
      FilterKeeps(s[1..]);
    }
  }

  lemma SlugChars(name: string)
    ensures forall c | c in Slugify(name) :: IsSlugChar(c) && LowerChar(c) == c
  {
    var kept := Filtered(Replaced(name, '/', '-'));
    var slug := Slugify(name);
    forall i | 0 <= i < |slug| ensures IsSlugChar(slug[i]) && LowerChar(slug[i]) == slug[i] {
      assert slug[i] == LowerChar(kept[i]) && kept[i] in kept;
    }
  }

  lemma SlugOfSlug(slug: string)
    requires |slug| <= MAX_IDENTIFIER && forall c | c in slug :: IsSlugChar(c) && LowerChar(c) == c
    ensures Slugify(slug) == slug
  {
    forall i | 0 <= i < |slug| ensures slug[i] != '/' && LowerChar(slug[i]) == slug[i] {
      assert slug[i] in slug;
    }
    assert Replaced(slug, '/', '-') == slug;
    FilterKeeps(slug);
    assert Lower(slug) == slug;
  }

  lemma SlugIsFixed(name: string)
    ensures Slugify(Slugify(name)) == Slugify(name)
  {
    SlugChars(name);
    SlugOfSlug(Slugify(name));
  }

  // ---- PostgreSQL identifiers of service databases ---------------------------------------

  const DIGEST_LENGTH := 10
  const HEAD := MAX_IDENTIFIER - DIGEST_LENGTH - 1

  /** The digest of the exact (prefix, team, name) triple: ten hexadecimal digits. */
  type Digest = (string, string, string) -> string

  ghost predicate IsDigest(d: Digest) {
    forall p, t, n :: |d(p, t, n)| == DIGEST_LENGTH && forall c | c in d(p, t, n) :: '0' <= c <= '9' || 'a' <= c <= 'f'
  }

  predicate IsSafeChar(c: char) {
    IsSlugChar(c) || c == '.'
  }

  function Segment(team: string): (r: string)
    ensures |r| == |team|
  {
    if team == "" then ""
    else [LowerChar(if IsSafeChar(team[0]) then team[0] else '_')] + Segment(team[1..])
  }

  /** The team can be read back from the rendered identifier. */
  predicate RendersFaithfully(team: string) {
    '_' !in team && Segment(team) == team
  }

  /** Database names are validated before they get here. */
  predicate ValidDatabaseName(name: string) {
    && 0 < |name| <= 31 && name[0] != '_' && name[0] != '-'
    && forall c | c in name :: 'a' <= c <= 'z' || '0' <= c <= '9' || c == '_' || c == '-'
  }

  function Readable(prefix: string, team: string, name: string): string {
    prefix + "_" + Segment(team) + "_" + name
  }

  function Identifier(d: Digest, prefix: string, team: string, name: string): string {
    var plain := Readable(prefix, team, name);
    var safe := if RendersFaithfully(team) then plain else plain + "." + d(prefix, team, name);
    if |safe| <= MAX_IDENTIFIER then safe else safe[..HEAD] + "." + d(prefix, team, name)
  }

  predicate EndsWith(s: string, tail: string) {
    |tail| <= |s| && s[|s| - |tail|..] == tail
  }

  /** An identifier is either readable, and its team faithful, or ends in its digest. */
  lemma IdentifierForms(d: Digest, prefix: string, team: string, name: string)
    requires IsDigest(d)
    ensures var id := Identifier(d, prefix, team, name);
            && |id| <= MAX_IDENTIFIER
            && ((RendersFaithfully(team) && id == Readable(prefix, team, name)) ||
                  EndsWith(id, "." + d(prefix, team, name)))
  {
  }

  /** Two faithful teams: the first underscore after the prefix ends the team. */
  lemma ReadableIsInjective(prefix: string, t1: string, n1: string, t2: string, n2: string)
    requires RendersFaithfully(t1) && RendersFaithfully(t2)
    requires Readable(prefix, t1, n1) == Readable(prefix, t2, n2)
    ensures t1 == t2 && n1 == n2
  {
    var r1, r2 := Readable(prefix, t1, n1), Readable(prefix, t2, n2);
    var at := |prefix| + 1;
    assert r1[at + |t1|] == '_' && r2[at + |t2|] == '_';
    assert r1[at..at + |t1|] == t1 && r2[at..at + |t2|] == t2;
    assert forall i | 0 <= i < |t1| :: r1[at + i] == t1[i] != '_';
    assert forall i | 0 <= i < |t2| :: r2[at + i] == t2[i] != '_';
    assert n1 == r1[at + |t1| + 1..] && n2 == r2[at + |t2| + 1..];
  }

  /** After its last dot a readable identifier still has an underscore. */
  lemma UnderscoreAfterDot(prefix: string, team: string, name: string, dot: nat)
    requires ValidDatabaseName(name)
    requires dot < |Readable(prefix, team, name)| && Readable(prefix, team, name)[dot] == '.'
    ensures '_' in Readable(prefix, team, name)[dot + 1..]
  {
    var r := Readable(prefix, team, name);
    var separator := |r| - |name| - 1;
    assert r[separator] == '_';
    assert forall i | separator < i < |r| :: r[i] == name[i - separator - 1] && r[i] in name;
    assert r[dot + 1..][separator - dot - 1] == '_';
  }

  lemma ReadableNeverEndsInDigest(prefix: string, team: string, name: string, digest: string)
    requires ValidDatabaseName(name)
    requires |digest| == DIGEST_LENGTH && forall c | c in digest :: '0' <= c <= '9' || 'a' <= c <= 'f'
    ensures !EndsWith(Readable(prefix, team, name), "." + digest)
  {
    var r := Readable(prefix, team, name);
    var dot := |r| - DIGEST_LENGTH - 1;
    if dot >= 0 && r[dot] == '.' {
      UnderscoreAfterDot(prefix, team, name, dot);
      assert '_' !in digest;
      assert r[dot..][1..] == r[dot + 1..];
      assert ("." + digest)[1..] == digest;
    }
  }

  /** Distinct databases share an identifier only if their digests collide. */
  lemma IdentifierIsInjective(d: Digest, prefix: string, t1: string, n1: string, t2: string, n2: string)
    requires IsDigest(d) && ValidDatabaseName(n1) && ValidDatabaseName(n2)
    requires Identifier(d, prefix, t1, n1) == Identifier(d, prefix, t2, n2)
    ensures (t1 == t2 && n1 == n2) || d(prefix, t1, n1) == d(prefix, t2, n2)
  {
    IdentifierForms(d, prefix, t1, n1);
    IdentifierForms(d, prefix, t2, n2);
    var id := Identifier(d, prefix, t1, n1);
    var d1, d2 := d(prefix, t1, n1), d(prefix, t2, n2);
    assert |d1| == DIGEST_LENGTH && |d2| == DIGEST_LENGTH;
    if EndsWith(id, "." + d1) && EndsWith(id, "." + d2) {
      assert ("." + d1)[1..] == d1 && ("." + d2)[1..] == d2;
    } else if EndsWith(id, "." + d1) {
      ReadableNeverEndsInDigest(prefix, t2, n2, d1);
    } else if EndsWith(id, "." + d2) {
      ReadableNeverEndsInDigest(prefix, t1, n1, d2);
    } else {
      ReadableIsInjective(prefix, t1, n1, t2, n2);
    }
  }

  /** Without the digest two teams would share a database. */
  lemma ReadableAloneCollides(prefix: string)
    ensures Readable(prefix, "a", "b_c") == Readable(prefix, "a_b", "c")
    ensures ValidDatabaseName("b_c") && ValidDatabaseName("c") && !RendersFaithfully("a_b")
  {
  }
}
