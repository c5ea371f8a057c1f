/** Minted OAuth token pairs: one shared file, one cache per process. */
module OAuthTokenStore {
  import opened Effects

  type Token = string

  datatype Access = Access(client: string, scopes: seq<string>, expiresAt: int, refresh: Token)
  datatype Refresh = Refresh(client: string, scopes: seq<string>, access: Token)
  datatype Data = Data(access: map<Token, Access>, refresh: map<Token, Refresh>)

  /** Specification only: who was minted with whom, in which lineage, and what was used up.
      A lineage starts with a grant and continues through rotations. */
  datatype Ledger = Ledger(partner: map<Token, Token>, lineage: map<Token, nat>, spent: set<Token>, next: nat)

  const NOTHING := Data(map[], map[])

  function Pruned(d: Data, now: int): Data {
    d.(access := map t | t in d.access && d.access[t].expiresAt >= now :: d.access[t])
  }

  function WithPair(d: Data, a: Token, r: Token, client: string, scopes: seq<string>, expiresAt: int): Data {
    Data(d.access[a := Access(client, scopes, expiresAt, r)], d.refresh[r := Refresh(client, scopes, a)])
  }

  /** What a rotation takes out: the presented refresh token and its access partner. */
  function WithoutPair(d: Data, r: Token): Data
    requires r in d.refresh
  {
    Data(d.access - {d.refresh[r].access}, d.refresh - {r})
  }

  function Revoked(d: Data, t: Token): Data {
    var e := if t in d.access then Data(d.access - {t}, d.refresh - {d.access[t].refresh}) else d;
    if t in e.refresh then Data(e.access - {e.refresh[t].access}, e.refresh - {t}) else e
  }

  // ---- the invariant of the file -----------------------------------------------------------

  ghost predicate Live(d: Data, t: Token) {
    t in d.access || t in d.refresh
  }

  /** An access record points back at its refresh partner, which is alive too. */
  ghost predicate AccessOk(d: Data, g: Ledger, a: Token) {
    && a in d.access && a in g.partner && a !in g.spent && a !in d.refresh
    && g.partner[a] == d.access[a].refresh && g.partner[a] in d.refresh
  }

  /** A refresh record points at the access token it was minted with, alive or not. */
  ghost predicate RefreshOk(d: Data, g: Ledger, r: Token) {
    && r in d.refresh && r in g.partner && r !in g.spent
    && g.partner[r] == d.refresh[r].access && g.partner[r] in g.partner && g.partner[g.partner[r]] == r
  }

  ghost predicate Sound(d: Data, g: Ledger) {
    && LedgerOk(g)
    && (forall a | a in d.access :: AccessOk(d, g, a))
    && (forall r | r in d.refresh :: RefreshOk(d, g, r))
    && Unbranched(d, g)
  }

  /** Partners are mutual and share a lineage. */
  ghost predicate LedgerOk(g: Ledger) {
    && g.partner.Keys == g.lineage.Keys && g.spent <= g.partner.Keys
    && (forall t | t in g.partner :: Mutual(g, t))
  }

  ghost predicate Mutual(g: Ledger, t: Token) {
    && t in g.partner && t in g.lineage && g.lineage[t] < g.next
    && var p := g.partner[t];
       p in g.partner && p != t && g.partner[p] == t && p in g.lineage && g.lineage[p] == g.lineage[t]
  }

  ghost predicate Unbranched(d: Data, g: Ledger) {
    forall r, s | r in d.refresh && s in d.refresh && r in g.lineage && s in g.lineage &&
        g.lineage[r] == g.lineage[s] :: r == s
  }

  /** At most one live token of each kind in every lineage. */
  lemma OneLivePairPerLineage(d: Data, g: Ledger)
    requires Sound(d, g)
    ensures forall t | Live(d, t) :: t in g.lineage
    ensures forall r, s | r in d.refresh && s in d.refresh && g.lineage[r] == g.lineage[s] :: r == s
    ensures forall a, b | a in d.access && b in d.access && g.lineage[a] == g.lineage[b] :: a == b
  {
  }

  function LedgerAfterPair(g: Ledger, a: Token, r: Token, lineage: nat): Ledger {
    g.(partner := g.partner[a := r][r := a], lineage := g.lineage[a := lineage][r := lineage],
       next := if lineage == g.next then g.next + 1 else g.next)
  }

  function Spend(g: Ledger, ts: set<Token>): Ledger {
    g.(spent := g.spent + (ts * g.partner.Keys))
  }

  /** Partners and lineages stay as minted, and what is used up stays used up. */
  ghost predicate Grows(g: Ledger, h: Ledger) {
    && g.spent <= h.spent && g.next <= h.next
    && (forall t | t in g.partner :: t in h.partner && h.partner[t] == g.partner[t])
    && (forall t | t in g.lineage :: t in h.lineage && h.lineage[t] == g.lineage[t])
  }

  /** A file only changes together with its modification time. */
  ghost predicate Later(m: nat, d: Data, g: Ledger, n: nat, e: Data, h: Ledger) {
    m <= n && (m == n ==> e == d) && Grows(g, h)
  }

  lemma SpendGrows(g: Ledger, ts: set<Token>)
    ensures Grows(g, Spend(g, ts))
  {
  }

  lemma PairGrows(g: Ledger, a: Token, r: Token, lineage: nat)
    requires g.partner.Keys == g.lineage.Keys && a !in g.partner && r !in g.partner
    ensures Grows(g, LedgerAfterPair(g, a, r, lineage))
    ensures LedgerAfterPair(g, a, r, lineage).partner.Keys == g.partner.Keys + {a, r}
  {
  }

  lemma RotationGrows(d: Data, g: Ledger, oldRefresh: Token, a: Token, r: Token)
    requires g.partner.Keys == g.lineage.Keys && oldRefresh in d.refresh && a !in g.partner && r !in g.partner
    ensures Grows(g, RotatedLedger(d, g, oldRefresh, a, r))
    ensures RotatedLedger(d, g, oldRefresh, a, r).partner.Keys == g.partner.Keys + {a, r}
  {
    var h := Spend(g, {oldRefresh, d.refresh[oldRefresh].access});
    SpendGrows(g, {oldRefresh, d.refresh[oldRefresh].access});
    PairGrows(h, a, r, if oldRefresh in g.lineage then g.lineage[oldRefresh] else 0);
  }

  lemma PruneIsSound(d: Data, g: Ledger, now: int)
    requires Sound(d, g)
    ensures Sound(Pruned(d, now), g)
  {
  }

  lemma PairLedger(g: Ledger, a: Token, r: Token, lineage: nat)
    requires LedgerOk(g) && a != r && a !in g.partner && r !in g.partner && lineage <= g.next
    ensures LedgerOk(LedgerAfterPair(g, a, r, lineage))
  {
  }

  lemma PairIsSound(d: Data, g: Ledger, a: Token, r: Token, client: string, scopes: seq<string>, expiresAt: int,
                    lineage: nat)
    requires Sound(d, g) && a != r && a !in g.partner && r !in g.partner && lineage <= g.next
    requires forall s | s in d.refresh && s in g.lineage :: g.lineage[s] != lineage
    ensures Sound(WithPair(d, a, r, client, scopes, expiresAt), LedgerAfterPair(g, a, r, lineage))
  {
    hide AccessOk, RefreshOk, LedgerOk, Unbranched;
    var e, h := WithPair(d, a, r, client, scopes, expiresAt), LedgerAfterPair(g, a, r, lineage);
    PairLedger(g, a, r, lineage);
    forall x | x in e.access ensures AccessOk(e, h, x) {
      NewAccessOk(d, g, a, r, client, scopes, expiresAt, lineage, x);
    }
    forall x | x in e.refresh ensures RefreshOk(e, h, x) {
      NewRefreshOk(d, g, a, r, client, scopes, expiresAt, lineage, x);
    }
    StillUnbranched(d, g, e, h, a, r, lineage);
  }

  lemma NewAccessOk(d: Data, g: Ledger, a: Token, r: Token, client: string, scopes: seq<string>, expiresAt: int,
                    lineage: nat, x: Token)
    requires Sound(d, g) && a != r && a !in g.partner && r !in g.partner && (x == a || x in d.access)
    ensures AccessOk(WithPair(d, a, r, client, scopes, expiresAt), LedgerAfterPair(g, a, r, lineage), x)
  {
  }

  lemma NewRefreshOk(d: Data, g: Ledger, a: Token, r: Token, client: string, scopes: seq<string>, expiresAt: int,
                     lineage: nat, x: Token)
    requires Sound(d, g) && a != r && a !in g.partner && r !in g.partner && (x == r || x in d.refresh)
    ensures RefreshOk(WithPair(d, a, r, client, scopes, expiresAt), LedgerAfterPair(g, a, r, lineage), x)
  {
  }

  lemma StillUnbranched(d: Data, g: Ledger, e: Data, h: Ledger, a: Token, r: Token, lineage: nat)
    requires Sound(d, g) && a !in g.partner && r !in g.partner && a != r
    requires e.refresh.Keys == d.refresh.Keys + {r} && h.lineage == g.lineage[a := lineage][r := lineage]
    requires forall s | s in d.refresh && s in g.lineage :: g.lineage[s] != lineage
    ensures Unbranched(e, h)
  {
  }

  /** Rotation and revocation use the pair up for good. */
  lemma TakeOutIsSound(d: Data, g: Ledger, r: Token)
    requires Sound(d, g) && r in d.refresh
    ensures r in g.partner && g.partner[r] == d.refresh[r].access
    ensures var e := WithoutPair(d, r);
            && Sound(e, Spend(g, {r, g.partner[r]}))
            && (forall s | s in e.refresh && s in g.lineage :: g.lineage[s] != g.lineage[r])
            && !Live(e, r) && !Live(e, g.partner[r])
  {
    assert RefreshOk(d, g, r);
    var e, h := WithoutPair(d, r), Spend(g, {r, g.partner[r]});
    forall a | a in e.access ensures AccessOk(e, h, a) {
      assert AccessOk(d, g, a);
    }
    assert Mutual(g, r);
    forall s | s in e.refresh ensures RefreshOk(e, h, s) {
      assert RefreshOk(d, g, s) && s in g.lineage;
    }
    forall t | t in h.partner ensures Mutual(h, t) {
      assert Mutual(g, t);
    }
  }

  /** Revocation by either side ends the pair, as far as the file still has the presented side. */
  lemma RevokeIsSound(d: Data, g: Ledger, t: Token)
    requires Sound(d, g)
    ensures Sound(Revoked(d, t), RevokedLedger(d, g, t)) && !Live(Revoked(d, t), t)
    ensures t !in g.partner ==> Revoked(d, t) == d
  {
    assert t in d.access ==> AccessOk(d, g, t);
    assert t in d.refresh ==> RefreshOk(d, g, t);
    if t in d.access {
      TakeOutIsSound(d, g, g.partner[t]);
      assert g.partner[g.partner[t]] == t by { assert Mutual(g, t); }
      assert Revoked(d, t) == WithoutPair(d, g.partner[t]);
      assert {g.partner[t], t} == {t, g.partner[t]};
    } else if t in d.refresh {
      TakeOutIsSound(d, g, t);
      assert Revoked(d, t) == WithoutPair(d, t);
    } else {
      assert Revoked(d, t) == d;
    }
  }

  function RevokedLedger(d: Data, g: Ledger, t: Token): Ledger {
    if (t in d.access || t in d.refresh) && t in g.partner then Spend(g, {t, g.partner[t]}) else g
  }

  /** Revoking a token also ends its partner, except exactly when the presented side is an access token
      that expiry has already removed while its refresh token lives on. */
  lemma RevocationReachesPartner(d: Data, g: Ledger, t: Token)
    requires Sound(d, g) && t in g.partner
    ensures Live(Revoked(d, t), g.partner[t]) <==> !Live(d, t) && Live(d, g.partner[t])
  {
  }

  /** A client that revokes an expired access token leaves a refresh token that still rotates. */
  lemma RevokingExpiredLeavesRefresh()
    ensures var d := WithPair(NOTHING, "a", "r", "1", [], 10);
            var g := LedgerAfterPair(Ledger(map[], map[], {}, 0), "a", "r", 0);
            && Sound(d, g) && Sound(Pruned(d, 11), g)
            && "r" in Revoked(Pruned(d, 11), "a").refresh
            && "r" !in Revoked(d, "a").refresh
  {
    var none := Ledger(map[], map[], {}, 0);
    PairIsSound(NOTHING, none, "a", "r", "1", [], 10, 0);
    var d := WithPair(NOTHING, "a", "r", "1", [], 10);
    PruneIsSound(d, LedgerAfterPair(none, "a", "r", 0), 11);
    assert "a" !in Pruned(d, 11).access;
  }

  function RotatedLedger(d: Data, g: Ledger, oldRefresh: Token, a: Token, r: Token): Ledger
    requires oldRefresh in d.refresh
  {
    LedgerAfterPair(Spend(g, {oldRefresh, d.refresh[oldRefresh].access}), a, r,
                    if oldRefresh in g.lineage then g.lineage[oldRefresh] else 0)
  }

  function RotatedData(d: Data, oldRefresh: Token, now: int, a: Token, r: Token, expiresAt: int): Data
    requires oldRefresh in d.refresh
  {
    WithPair(Pruned(WithoutPair(d, oldRefresh), now), a, r, d.refresh[oldRefresh].client, d.refresh[oldRefresh].scopes,
        expiresAt)
  }

  /** The old pair is used up for good; the new one has the same owner and continues its lineage. */
  ghost predicate Continues(d: Data, g: Ledger, oldRefresh: Token, r: Token, e: Data, h: Ledger) {
    && oldRefresh in d.refresh && r in e.refresh
    && var was := d.refresh[oldRefresh];
       && e.refresh[r].client == was.client && e.refresh[r].scopes == was.scopes
       && oldRefresh in g.lineage && r in h.lineage && h.lineage[r] == g.lineage[oldRefresh]
       && {oldRefresh, was.access} <= h.spent && g.spent <= h.spent
       && !Live(e, oldRefresh) && !Live(e, was.access)
  }

  lemma RotationIsSound(d: Data, g: Ledger, oldRefresh: Token, now: int, a: Token, r: Token, expiresAt: int)
    requires Sound(d, g) && oldRefresh in d.refresh && a != r && a !in g.partner && r !in g.partner
    ensures Sound(RotatedData(d, oldRefresh, now, a, r, expiresAt), RotatedLedger(d, g, oldRefresh, a, r))
    ensures Continues(d, g, oldRefresh, r, RotatedData(d, oldRefresh, now, a, r, expiresAt),
              RotatedLedger(d, g, oldRefresh, a, r))
  {
    hide Sound, Continues;
    var e, h := RotatedData(d, oldRefresh, now, a, r, expiresAt), RotatedLedger(d, g, oldRefresh, a, r);
    RotatedIsSound(d, g, oldRefresh, now, a, r, expiresAt);
    OldPairIsSpent(d, g, oldRefresh, a, r);
    SpentIsGone(e, h);
    RotatedContinues(d, g, oldRefresh, now, a, r, expiresAt);
  }

  lemma RotatedIsSound(d: Data, g: Ledger, oldRefresh: Token, now: int, a: Token, r: Token, expiresAt: int)
    requires Sound(d, g) && oldRefresh in d.refresh && a != r && a !in g.partner && r !in g.partner
    ensures Sound(RotatedData(d, oldRefresh, now, a, r, expiresAt), RotatedLedger(d, g, oldRefresh, a, r))
  {
    var was := d.refresh[oldRefresh];
    TakeOutIsSound(d, g, oldRefresh);
    assert Mutual(g, oldRefresh);
    hide Sound, Mutual, Live;
    var h, out := Spend(g, {oldRefresh, was.access}), WithoutPair(d, oldRefresh);
    PruneIsSound(out, h, now);
    PairIsSound(Pruned(out, now), h, a, r, was.client, was.scopes, expiresAt, g.lineage[oldRefresh]);
  }

  lemma OldPairIsSpent(d: Data, g: Ledger, oldRefresh: Token, a: Token, r: Token)
    requires Sound(d, g) && oldRefresh in d.refresh
    ensures var h := RotatedLedger(d, g, oldRefresh, a, r);
            && oldRefresh in g.lineage && r in h.lineage && h.lineage[r] == g.lineage[oldRefresh]
            && {oldRefresh, d.refresh[oldRefresh].access} <= h.spent && g.spent <= h.spent
  {
  }

  lemma RotatedContinues(d: Data, g: Ledger, oldRefresh: Token, now: int, a: Token, r: Token, expiresAt: int)
    requires oldRefresh in d.refresh
    requires var e, h := RotatedData(d, oldRefresh, now, a, r, expiresAt), RotatedLedger(d, g, oldRefresh, a, r);
             && oldRefresh in g.lineage && r in h.lineage && h.lineage[r] == g.lineage[oldRefresh]
             && {oldRefresh, d.refresh[oldRefresh].access} <= h.spent && g.spent <= h.spent
             && forall t | t in h.spent :: !Live(e, t)
    ensures Continues(d, g, oldRefresh, r, RotatedData(d, oldRefresh, now, a, r, expiresAt),
              RotatedLedger(d, g, oldRefresh, a, r))
  {
  }

  // ---- the store of one process -----------------------------------------------------------------

  /** The JSON file. Every write changes its modification time. */
  class TokenFile {
    var data: Data
    var mtime: nat
    ghost var ledger: Ledger

    ghost predicate Valid()
      reads this
    {
      Sound(data, ledger)
    }

    constructor ()
      ensures Valid() && data == NOTHING
    {
      data, mtime, ledger := NOTHING, 0, Ledger(map[], map[], {}, 0);
    }

    method Save(data: Data, ghost ledger: Ledger)
      requires Sound(data, ledger)
      modifies this
      ensures Valid() && this.data == data && this.ledger == ledger && mtime == old(mtime) + 1
    {
      this.data, this.ledger, mtime := data, ledger, mtime + 1;
    }
  }

  class Store {
    const file: TokenFile
    const accessTtl: nat
    var access: map<Token, Access>
    var refresh: map<Token, Refresh>
    var mtime: nat

    /** Until another process writes the file, the cache is the file. */
    ghost predicate Valid()
      reads this, file
    {
      file.Valid() && mtime <= file.mtime &&
          (mtime == file.mtime ==> access == file.data.access && refresh == file.data.refresh)
    }

    constructor (file: TokenFile, accessTtl: nat, now: int)
      requires file.Valid()
      modifies file
      ensures Valid() && this.file == file && this.accessTtl == accessTtl
      ensures file.data == Pruned(old(file.data), now) && file.ledger == old(file.ledger)
    {
      this.file, this.accessTtl := file, accessTtl;
      access, refresh, mtime := file.data.access, file.data.refresh, file.mtime;
      new;
      Reload(now);
    }

    method SetCache()
      requires file.Valid()
      modifies this
      ensures Valid() && mtime == file.mtime
    {
      access, refresh, mtime := file.data.access, file.data.refresh, file.mtime;
    }

    /** Expiry removes only access records. */
    method Reload(now: int)
      requires file.Valid()
      modifies this, file
      ensures Valid() && mtime == file.mtime
      ensures file.data == Pruned(old(file.data), now) && file.ledger == old(file.ledger)
      ensures Later(old(file.mtime), old(file.data), old(file.ledger), file.mtime, file.data, file.ledger)
    {
      var pruned := Pruned(file.data, now);
      if pruned != file.data {
        PruneIsSound(file.data, file.ledger, now);
        file.Save(pruned, file.ledger);
      }
      SetCache();
    }

    /** Served from the cache; the file is read only on a miss. */
    method GetAccess(token: Token, now: int) returns (r: Option<Access>)
      requires Valid()
      modifies this, file
      ensures Valid() && file.ledger == old(file.ledger)
      ensures Later(old(file.mtime), old(file.data), old(file.ledger), file.mtime, file.data, file.ledger)
      ensures file.data == old(file.data) || file.data == Pruned(old(file.data), now)
      ensures r == if token in old(access) then Unexpired(old(access), token, now)
                   else Unexpired(old(file.data).access, token, now)
      ensures old(mtime == file.mtime) ==> r == Unexpired(old(file.data).access, token, now)
    {
      if token !in access && mtime != file.mtime {
        Reload(now);
      }
      if token !in access { return None; }
      var record := access[token];
      if record.expiresAt < now {
        Reload(now);
        return None;
      }
      r := Some(record);
    }

    method GetRefresh(token: Token, now: int) returns (r: Option<Refresh>)
      requires Valid()
      modifies this, file
      ensures Valid() && file.ledger == old(file.ledger)
      ensures Later(old(file.mtime), old(file.data), old(file.ledger), file.mtime, file.data, file.ledger)
      ensures file.data == old(file.data) || file.data == Pruned(old(file.data), now)
      ensures r == if token in old(refresh) then Some(old(refresh)[token])
                   else if token in old(file.data).refresh then Some(old(file.data).refresh[token]) else None
    {
      if token !in refresh && mtime != file.mtime {
        Reload(now);
      }
      r := if token in refresh then Some(refresh[token]) else None;
    }

    /** `a` and `r` are the random tokens drawn for the pair. */
    method MintPair(client: string, scopes: seq<string>, now: int, a: Token, r: Token) returns (expiresAt: int)
      requires Valid() && a != r && a !in file.ledger.partner && r !in file.ledger.partner
      modifies this, file
      ensures Valid() && mtime == file.mtime && expiresAt == now + accessTtl
      ensures file.data == WithPair(Pruned(old(file.data), now), a, r, client, scopes, expiresAt)
      ensures file.ledger == LedgerAfterPair(old(file.ledger), a, r, old(file.ledger.next))
      ensures Later(old(file.mtime), old(file.data), old(file.ledger), file.mtime, file.data, file.ledger)
      ensures file.mtime > old(file.mtime)
    {
      PairGrows(file.ledger, a, r, file.ledger.next);
      expiresAt := now + accessTtl;
      ghost var g := file.ledger;
      var pruned := Pruned(file.data, now);
      PruneIsSound(file.data, g, now);
      KnownLineages(pruned, g);
      PairIsSound(pruned, g, a, r, client, scopes, expiresAt, g.next);
      file.Save(WithPair(pruned, a, r, client, scopes, expiresAt), LedgerAfterPair(g, a, r, g.next));
      SetCache();
    }

    /** Consumes a refresh token and its access partner; the new pair continues the lineage. */
    method Rotate(oldRefresh: Token, now: int, a: Token, r: Token) returns (pair: Option<(int, string, seq<string>)>)
      requires Valid() && a != r && a !in file.ledger.partner && r !in file.ledger.partner
      modifies this, file
      ensures Valid() && mtime == file.mtime
      ensures Later(old(file.mtime), old(file.data), old(file.ledger), file.mtime, file.data, file.ledger)
      ensures pair.Some? ==> file.mtime > old(file.mtime)
      ensures file.ledger.partner.Keys <= old(file.ledger).partner.Keys + {a, r}
      ensures pair.Some? <==> oldRefresh in old(file.data).refresh
      ensures pair.None? ==> file.data == old(file.data) && file.ledger == old(file.ledger)
      ensures pair.Some? ==>
                var was := old(file.data).refresh[oldRefresh];
                && pair.value == (now + accessTtl, was.client, was.scopes)
                && file.data == RotatedData(old(file.data), oldRefresh, now, a, r, now + accessTtl)
                && Continues(old(file.data), old(file.ledger), oldRefresh, r, file.data, file.ledger)
    {
      hide Sound, Continues, RotatedData;
      if oldRefresh !in file.data.refresh {
        SetCache();
        return None;
      }
      pair := Consume(oldRefresh, now, a, r);
    }

    method Consume(oldRefresh: Token, now: int, a: Token, r: Token) returns (pair: Option<(int, string, seq<string>)>)
      requires Valid() && a != r && a !in file.ledger.partner && r !in file.ledger.partner
      requires oldRefresh in file.data.refresh
      modifies this, file
      ensures Valid() && mtime == file.mtime
      ensures Later(old(file.mtime), old(file.data), old(file.ledger), file.mtime, file.data, file.ledger)
      ensures file.mtime > old(file.mtime) && file.ledger.partner.Keys <= old(file.ledger).partner.Keys + {a, r}
      ensures var was := old(file.data).refresh[oldRefresh]; pair == Some((now + accessTtl, was.client, was.scopes))
      ensures file.data == RotatedData(old(file.data), oldRefresh, now, a, r, now + accessTtl)
      ensures Continues(old(file.data), old(file.ledger), oldRefresh, r, file.data, file.ledger)
    {
      hide Sound, Continues, RotatedData, RotatedLedger;
      ghost var d, g := file.data, file.ledger;
      var was := file.data.refresh[oldRefresh];
      RotationIsSound(d, g, oldRefresh, now, a, r, now + accessTtl);
      assert g.partner.Keys == g.lineage.Keys by { KnownPartners(d, g); }
      RotationGrows(d, g, oldRefresh, a, r);
      file.Save(RotatedData(file.data, oldRefresh, now, a, r, now + accessTtl), RotatedLedger(d, g, oldRefresh, a, r));
      SetCache();
      pair := Some((now + accessTtl, was.client, was.scopes));
    }

    method Revoke(token: Token)
      requires Valid()
      modifies this, file
      ensures Later(old(file.mtime), old(file.data), old(file.ledger), file.mtime, file.data, file.ledger)
      ensures Valid() && mtime == file.mtime
      ensures file.data == Revoked(old(file.data), token)
      ensures file.ledger == RevokedLedger(old(file.data), old(file.ledger), token)
    {
      RevokeIsSound(file.data, file.ledger, token);
      var revoked := Revoked(file.data, token);
      if token in file.data.access || token in file.data.refresh {
        file.Save(revoked, RevokedLedger(file.data, file.ledger, token));
      }
      SetCache();
    }
  }

  function Unexpired(access: map<Token, Access>, token: Token, now: int): Option<Access> {
    if token in access && access[token].expiresAt >= now then Some(access[token]) else None
  }

  lemma KnownLineages(d: Data, g: Ledger)
    requires Sound(d, g)
    ensures forall s | s in d.refresh && s in g.lineage :: g.lineage[s] != g.next
  {
  }

  lemma KnownPartners(d: Data, g: Ledger)
    requires Sound(d, g)
    ensures g.partner.Keys == g.lineage.Keys
  {
  }

  /** Rotated and revoked tokens are in no record. */
  lemma SpentIsGone(d: Data, g: Ledger)
    requires Sound(d, g)
    ensures forall t | t in g.spent :: !Live(d, t)
  {
  }

  /** Two processes share the file. A token that the other one revoked is still served from the cache
      until it expires; a process that has not cached it refuses it at once. */
  method RevokedElsewhere(mine: Store, other: Store, token: Token, now: int) returns (r: Option<Access>)
    requires mine != other && mine.file == other.file && mine.Valid() && other.Valid()
    requires mine.mtime == mine.file.mtime && token in mine.file.data.access &&
              mine.file.data.access[token].expiresAt >= now
    modifies mine, other, mine.file
    ensures token !in mine.file.data.access
    ensures r == Some(old(mine.file.data).access[token])
  {
    RevokeIsSound(mine.file.data, mine.file.ledger, token);
    other.Revoke(token);
    r := mine.GetAccess(token, now);
  }

  // ---- whole runs of several processes -------------------------------------------------------

  datatype Request =
    | Look(token: Token)
    | LookRefresh(token: Token)
    | Mint(client: string, scopes: seq<string>, a: Token, r: Token)
    | Renew(token: Token, a: Token, r: Token)
    | End(token: Token)

  /** One request to one of the processes. */
  datatype Event = Event(process: nat, request: Request, now: int)

  /** The random tokens an event draws. */
  function Drawn(e: Event): set<Token> {
    if e.request.Mint? || e.request.Renew? then {e.request.a, e.request.r} else {}
  }

  /** Random tokens never repeat. */
  ghost predicate FreshDraws(events: seq<Event>, known: set<Token>) {
    && (forall e | e in events && (e.request.Mint? || e.request.Renew?) :: e.request.a != e.request.r)
    && (forall e | e in events :: Drawn(e) !! known)
    && (forall i, j | 0 <= i < j < |events| :: Drawn(events[i]) !! Drawn(events[j]))
  }

  /** No token is live that was not, but those just drawn. */
  ghost predicate NothingRevived(d: Data, e: Data, drawn: set<Token>) {
    forall t | Live(e, t) :: Live(d, t) || t in drawn
  }

  lemma SimpleChanges(d: Data, e: Event)
    ensures NothingRevived(d, d, Drawn(e)) && NothingRevived(d, Pruned(d, e.now), Drawn(e))
    ensures e.request.End? ==> NothingRevived(d, Revoked(d, e.request.token), Drawn(e))
    ensures forall client, scopes, a, r, expiresAt | {a, r} <= Drawn(e) ::
              NothingRevived(d, WithPair(Pruned(d, e.now), a, r, client, scopes, expiresAt), Drawn(e))
    ensures forall token, a, r, expiresAt | {a, r} <= Drawn(e) && token in d.refresh ::
              NothingRevived(d, RotatedData(d, token, e.now, a, r, expiresAt), Drawn(e))
  {
  }

  method Act(store: Store, e: Event)
    requires store.Valid() && FreshDraws([e], store.file.ledger.partner.Keys)
    modifies store, store.file
    ensures store.Valid()
    ensures Later(old(store.file.mtime), old(store.file.data), old(store.file.ledger), store.file.mtime,
              store.file.data, store.file.ledger)
    ensures store.file.ledger.partner.Keys <= old(store.file.ledger).partner.Keys + Drawn(e)
    ensures NothingRevived(old(store.file.data), store.file.data, Drawn(e))
    ensures e.request.End? ==> !Live(store.file.data, e.request.token)
    ensures e.request.Renew? ==> e.request.token !in store.file.data.refresh
  {
    hide Sound, RotatedData, Later, NothingRevived;
    SimpleChanges(store.file.data, e);
    assert e in [e];
    match e.request
    case Look(token) => var _ := store.GetAccess(token, e.now);
    case LookRefresh(token) => var _ := store.GetRefresh(token, e.now);
    case Mint(client, scopes, a, r) =>
      var _ := store.MintPair(client, scopes, e.now, a, r);
    case Renew(token, a, r) => var _ := store.Rotate(token, e.now, a, r);
    case End(token) =>
      RevokeIsSound(store.file.data, store.file.ledger, token);
      store.Revoke(token);
  }

  /** Over any requests to any processes that share the file: every lineage has at most one live token of
      each kind, every cache is the file until another process writes, minted partners stay partners, and
      what was rotated or revoked at any time never comes back. */
  method Serve(file: TokenFile, stores: seq<Store>, events: seq<Event>)
    requires file.Valid() && forall s | s in stores :: s.file == file && s.Valid()
    requires FreshDraws(events, file.ledger.partner.Keys) && forall e | e in events :: e.process < |stores|
    modifies file, set s | s in stores
    ensures file.Valid() && forall s | s in stores :: s.Valid()
    ensures Grows(old(file.ledger), file.ledger)
    ensures forall t | t in old(file.ledger).spent :: !Live(file.data, t)
    ensures forall t | t in old(file.ledger).partner && !Live(old(file.data), t) :: !Live(file.data, t)
  {
    hide Sound, Live;
    ghost var known := file.ledger.partner.Keys;
    GrowsSelf(file.ledger);
    for i := 0 to |events|
      invariant file.Valid() && forall s | s in stores :: s.Valid()
      invariant Grows(old(file.ledger), file.ledger)
      invariant FreshDraws(events[i..], file.ledger.partner.Keys)
      invariant forall t | t in known && Live(file.data, t) :: Live(old(file.data), t)
    {
      ghost var g, rest := file.ledger, events[i..];
      var e := events[i];
      assert rest == [e] + events[i + 1..];
      FreshFirst(e, events[i + 1..], g.partner.Keys);
      assert Drawn(e) !! known;
      Act(stores[e.process], e);
      FreshRest(e, events[i + 1..], g.partner.Keys, file.ledger.partner.Keys);
    }
    SpentIsGone(file.data, file.ledger);
  }

  lemma GrowsSelf(g: Ledger)
    ensures Grows(g, g)
  {
  }

  lemma FreshFirst(e: Event, rest: seq<Event>, known: set<Token>)
    requires FreshDraws([e] + rest, known)
    ensures FreshDraws([e], known)
  {
    assert e in [e] + rest;
  }

  lemma FreshRest(e: Event, rest: seq<Event>, known: set<Token>, later: set<Token>)
    requires FreshDraws([e] + rest, known) && later <= known + Drawn(e)
    ensures FreshDraws(rest, later)
  {
    var all := [e] + rest;
    forall i | 0 <= i < |rest| ensures Drawn(rest[i]) !! Drawn(e) && rest[i] in all {
      assert all[0] == e && all[i + 1] == rest[i];
    }
    forall i, j | 0 <= i < j < |rest| ensures Drawn(rest[i]) !! Drawn(rest[j]) {
      assert all[i + 1] == rest[i] && all[j + 1] == rest[j];
    }
  }
}
