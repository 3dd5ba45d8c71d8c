/** Refresh-token families with rotation and reuse detection, and the account lock that cuts
    them off. Signing and parsing of tokens are an oracle: what a handler receives is the id
    a correctly signed, unexpired text carries, if it is one. */
module TokenFamilies {
  import opened Prelude

  type Id = string

  datatype Token = Token(user: Id, family: Id, hash: string, revoked: bool, expires: int)

  type Tokens = map<Id, Token>

  /** What a client presents: the token id in the text if it parses, and the hash of the text. */
  datatype Presented = Presented(parsed: Option<Id>, hash: string)

  datatype Claims = Claims(user: Id, family: Id, id: Id)

  datatype Verdict = Invalid | Reuse(claims: Claims) | Genuine(claims: Claims)

  function RevokeOne(ts: Tokens, id: Id): Tokens {
    map t | t in ts :: if t == id then ts[t].(revoked := true) else ts[t]
  }

  function RevokeFamily(ts: Tokens, family: Id): Tokens {
    map t | t in ts :: if ts[t].family == family then ts[t].(revoked := true) else ts[t]
  }

  function RevokeUser(ts: Tokens, user: Id): Tokens {
    map t | t in ts :: if ts[t].user == user then ts[t].(revoked := true) else ts[t]
  }

  /** The order of the checks matters: reuse is detected before expiry and before the hash. */
  function Check(ts: Tokens, p: Presented, now: int): Verdict {
    match p.parsed
    case None => Invalid
    case Some(id) =>
      if id !in ts then Invalid
      else
        var claims := Claims(ts[id].user, ts[id].family, id);
        if ts[id].revoked then Reuse(claims)
        else if now > ts[id].expires || p.hash != ts[id].hash then Invalid
        else Genuine(claims)
  }

  /** The table after `ValidateRefreshToken`: reuse revokes the whole family. */
  function AfterCheck(ts: Tokens, v: Verdict): Tokens {
    if v.Reuse? then RevokeFamily(ts, v.claims.family) else ts
  }

  /** The token to be minted: its drawn id, the hash of its text and its expiry, or a failure
      to sign or store it. */
  datatype Mint = Mint(id: Id, hash: string, expires: int) | MintFails

  /** `RotateRefreshToken`: the old token is revoked first, even if minting then fails. */
  function Rotate(ts: Tokens, c: Claims, user: Id, m: Mint): Tokens {
    var rest := RevokeOne(ts, c.id);
    if m.Mint? then rest[m.id := Token(user, c.family, m.hash, false, m.expires)] else rest
  }

  // ----- The handlers as steps

  /** Accounts map a user to whether the account is LOCKED. */
  datatype State = State(tokens: Tokens, accounts: map<Id, bool>)

  const START := State(map[], map[])

  datatype Step =
    | Register(user: Id)
    | Login(user: Id, family: Id, mint: Mint)
    | Refresh(shown: Presented, now: int, mint: Mint)
    | Logout(shown: Presented, now: int)
    | Lock(user: Id)
    | Unlock(user: Id)

  predicate MayLogin(s: State, user: Id) {
    user in s.accounts && !s.accounts[user]
  }

  /** Drawn ids are new. */
  ghost predicate Fresh(s: State, c: Step) {
    && (c.Register? ==> c.user !in s.accounts)
    && (c.Login? ==> forall t :: t in s.tokens ==> s.tokens[t].family != c.family)
    && ((c.Login? || c.Refresh?) && c.mint.Mint? ==> c.mint.id !in s.tokens)
  }

  function Apply(s: State, c: Step): State {
    match c
    case Register(user) => s.(accounts := s.accounts[user := false])
    case Login(user, family, mint) =>
      if MayLogin(s, user) && mint.Mint? then
        s.(tokens := s.tokens[mint.id := Token(user, family, mint.hash, false, mint.expires)])
      else s
    case Refresh(shown, now, mint) =>
      var v := Check(s.tokens, shown, now);
      if v.Reuse? then s.(tokens := RevokeUser(AfterCheck(s.tokens, v), v.claims.user))
      else if v.Genuine? && MayLogin(s, v.claims.user) then s.(tokens := Rotate(s.tokens, v.claims, v.claims.user, mint))
      else s
    case Logout(shown, now) =>
      var v := Check(s.tokens, shown, now);
      if v.Genuine? then s.(tokens := RevokeOne(s.tokens, v.claims.id)) else s.(tokens := AfterCheck(s.tokens, v))
    case Lock(user) =>
      if MayLogin(s, user) then State(RevokeUser(s.tokens, user), s.accounts[user := true]) else s
    case Unlock(user) =>
      if user in s.accounts && s.accounts[user] then s.(accounts := s.accounts[user := false]) else s
  }

  ghost predicate IsRun(s: State, cs: seq<Step>)
    decreases |cs|
  {
    cs == [] || (Fresh(s, cs[0]) && IsRun(Apply(s, cs[0]), cs[1..]))
  }

  function Run(s: State, cs: seq<Step>): State
    decreases |cs|
  {
    if cs == [] then s else Run(Apply(s, cs[0]), cs[1..])
  }

  // ----- The services

  class TokenService {
    var tokens: Tokens

    constructor ()
      ensures tokens == map[]
    {
      tokens := map[];
    }

    method GenerateTokenPair(user: Id, family: Id, mint: Mint) returns (ok: bool)
      modifies this
      ensures ok == mint.Mint?
      ensures tokens == if ok then old(tokens)[mint.id := Token(user, family, mint.hash, false, mint.expires)] else old(tokens)
    {
      if mint.MintFails? {
        return false;
      }
      tokens := tokens[mint.id := Token(user, family, mint.hash, false, mint.expires)];
      ok := true;
    }

    method ValidateRefreshToken(shown: Presented, now: int) returns (v: Verdict)
      modifies this
      ensures v == Check(old(tokens), shown, now) && tokens == AfterCheck(old(tokens), v)
    {
      if shown.parsed.None? || shown.parsed.value !in tokens {
        return Invalid;
      }
      var id := shown.parsed.value;
      var token := tokens[id];
      var claims := Claims(token.user, token.family, id);
      if token.revoked {
        tokens := map t | t in tokens :: if tokens[t].family == token.family then tokens[t].(revoked := true) else tokens[t];
        return Reuse(claims);
      }
      if now > token.expires {
        return Invalid;
      }
      if shown.hash != token.hash {
        return Invalid;
      }
      v := Genuine(claims);
    }

    method RevokeRefreshToken(id: Id)
      modifies this
      ensures tokens == RevokeOne(old(tokens), id)
    {
      tokens := map t | t in tokens :: if t == id then tokens[t].(revoked := true) else tokens[t];
    }

    method RevokeAllUserTokens(user: Id)
      modifies this
      ensures tokens == RevokeUser(old(tokens), user)
    {
      tokens := map t | t in tokens :: if tokens[t].user == user then tokens[t].(revoked := true) else tokens[t];
    }

    method RotateRefreshToken(claims: Claims, user: Id, mint: Mint) returns (ok: bool)
      modifies this
      ensures ok == mint.Mint? && tokens == Rotate(old(tokens), claims, user, mint)
    {
      RevokeRefreshToken(claims.id);
      if mint.MintFails? {
        return false;
      }
      tokens := tokens[mint.id := Token(user, claims.family, mint.hash, false, mint.expires)];
      ok := true;
    }
  }

  /** The command handlers that touch tokens; `true` is a handler returning no error. */
  class Handlers {
    var accounts: map<Id, bool>
    const service: TokenService

    constructor ()
      ensures fresh(service) && Abs() == START
    {
      accounts := map[];
      service := new TokenService();
    }

    ghost function Abs(): State
      reads this, service
    {
      State(service.tokens, accounts)
    }

    method HandleRefresh(shown: Presented, now: int, mint: Mint) returns (ok: bool)
      modifies service
      ensures Abs() == Apply(old(Abs()), Refresh(shown, now, mint))
      ensures ok <==> var v := Check(old(service.tokens), shown, now);
                      v.Genuine? && MayLogin(old(Abs()), v.claims.user) && mint.Mint?
    {
      var v := service.ValidateRefreshToken(shown, now);
      if !v.Genuine? {
        if v.Reuse? {
          service.RevokeAllUserTokens(v.claims.user);
        }
        return false;
      }
      if v.claims.user !in accounts || accounts[v.claims.user] {
        return false;
      }
      ok := service.RotateRefreshToken(v.claims, v.claims.user, mint);
    }

    /** A token that is already invalid counts as logged out; a reused one still takes its
        family down. */
    method HandleLogout(shown: Presented, now: int)
      modifies service
      ensures Abs() == Apply(old(Abs()), Logout(shown, now))
    {
      var v := service.ValidateRefreshToken(shown, now);
      if v.Genuine? {
        service.RevokeRefreshToken(v.claims.id);
      }
    }

    /** The end of both login handlers, once the account is found or created. */
    method FinishLogin(user: Id, family: Id, mint: Mint) returns (ok: bool)
      requires user in accounts
      modifies service
      ensures ok <==> !accounts[user] && mint.Mint?
      ensures Abs() == Apply(old(Abs()), Login(user, family, mint))
    {
      if accounts[user] {
        return false;
      }
      ok := service.GenerateTokenPair(user, family, mint);
    }

    method HandleLock(user: Id) returns (ok: bool)
      modifies this, service
      ensures ok <==> MayLogin(old(Abs()), user)
      ensures Abs() == Apply(old(Abs()), Lock(user))
    {
      if user !in accounts || accounts[user] {
        return false;
      }
      accounts := accounts[user := true];
      service.RevokeAllUserTokens(user);
      ok := true;
    }

    method HandleUnlock(user: Id) returns (ok: bool)
      modifies this
      ensures ok <==> user in old(accounts) && old(accounts[user])
      ensures Abs() == Apply(old(Abs()), Unlock(user))
    {
      if user !in accounts || !accounts[user] {
        return false;
      }
      accounts := accounts[user := false];
      ok := true;
    }
  }

  // ----- What every run keeps

  predicate IsLive(ts: Tokens, id: Id) {
    id in ts && !ts[id].revoked
  }

  ghost predicate OneLive(ts: Tokens) {
    forall a, b :: IsLive(ts, a) && IsLive(ts, b) && ts[a].family == ts[b].family ==> a == b
  }

  ghost predicate OneUser(ts: Tokens) {
    forall a, b :: a in ts && b in ts && ts[a].family == ts[b].family ==> ts[a].user == ts[b].user
  }

  /** [INV-ID01] for refresh tokens: a locked account has none that works. */
  ghost predicate LockedOut(s: State) {
    forall a :: IsLive(s.tokens, a) ==> MayLogin(s, s.tokens[a].user)
  }

  ghost predicate Inv(s: State) {
    OneLive(s.tokens) && OneUser(s.tokens) && LockedOut(s)
  }

  /** `b` has the rows of `a`, possibly more of them revoked. */
  ghost predicate Revokes(a: Tokens, b: Tokens) {
    a.Keys == b.Keys && forall t :: t in a ==> b[t] == a[t] || b[t] == a[t].(revoked := true)
  }

  lemma RevokingKeepsInv(s: State, ts: Tokens)
    requires Inv(s) && Revokes(s.tokens, ts)
    ensures Inv(s.(tokens := ts))
  {
    assert forall a :: IsLive(ts, a) ==> IsLive(s.tokens, a) && ts[a] == s.tokens[a];
    forall a, b | a in ts && b in ts && ts[a].family == ts[b].family ensures ts[a].user == ts[b].user {
      assert ts[a].user == s.tokens[a].user && ts[b].user == s.tokens[b].user;
    }
  }

  /** A new token whose family has no other live token, and the user its family has. */
  lemma MintingKeepsInv(s: State, id: Id, token: Token)
    requires Inv(s) && id !in s.tokens && MayLogin(s, token.user)
    requires forall t :: t in s.tokens && s.tokens[t].family == token.family ==> s.tokens[t].revoked && s.tokens[t].user == token.user
    ensures Inv(s.(tokens := s.tokens[id := token]))
  {
  }

  /** `Rotate` keeps at most one live token per family exactly when nothing else is live in
      that family at that moment. */
  lemma RotateIsSafeIff(ts: Tokens, c: Claims, user: Id, m: Mint)
    requires OneLive(ts) && m.Mint? && m.id !in ts
    ensures OneLive(Rotate(ts, c, user, m))
       <==> forall t :: IsLive(ts, t) && ts[t].family == c.family ==> t == c.id
  {
    var us := Rotate(ts, c, user, m);
    assert IsLive(us, m.id);
    assert forall t :: t != m.id ==> (IsLive(us, t) <==> IsLive(ts, t) && t != c.id);
    assert forall t :: t in ts ==> us[t].family == ts[t].family;
  }

  lemma RefreshStep(s: State, c: Step)
    requires Inv(s) && Fresh(s, c) && c.Refresh?
    ensures Inv(Apply(s, c))
  {
    var v := Check(s.tokens, c.shown, c.now);
    if v.Reuse? {
      RevokingKeepsInv(s, RevokeUser(AfterCheck(s.tokens, v), v.claims.user));
    } else if v.Genuine? && MayLogin(s, v.claims.user) {
      var rest := RevokeOne(s.tokens, v.claims.id);
      RevokingKeepsInv(s, rest);
      if c.mint.Mint? {
        assert IsLive(s.tokens, v.claims.id);
        MintingKeepsInv(s.(tokens := rest), c.mint.id, Token(v.claims.user, v.claims.family, c.mint.hash, false, c.mint.expires));
      }
    }
  }

  lemma LockStep(s: State, user: Id)
    requires Inv(s)
    ensures Inv(Apply(s, Lock(user)))
  {
    if MayLogin(s, user) {
      RevokingKeepsInv(s, RevokeUser(s.tokens, user));
    }
  }

  lemma InvStep(s: State, c: Step)
    requires Inv(s) && Fresh(s, c)
    ensures Inv(Apply(s, c))
  {
    match c
    case Login(user, family, mint) =>
      if MayLogin(s, user) && mint.Mint? {
        MintingKeepsInv(s, mint.id, Token(user, family, mint.hash, false, mint.expires));
      }
    case Refresh(_, _, _) => RefreshStep(s, c);
    case Logout(shown, now) => RevokingKeepsInv(s, Apply(s, c).tokens);
    case Lock(user) => LockStep(s, user);
    case _ =>
  }

  /** In every run each family has at most one unrevoked token, all its tokens belong to one
      user, and a locked account has none that is unrevoked. */
  lemma {:induction false} FamiliesRun(s: State, cs: seq<Step>)
    requires Inv(s) && IsRun(s, cs)
    ensures Inv(Run(s, cs))
    decreases |cs|
  {
    if cs != [] {
      InvStep(s, cs[0]);
      FamiliesRun(Apply(s, cs[0]), cs[1..]);
    }
  }

  // ----- Reuse ends the family

  /** The family exists and every token in it is revoked. */
  ghost predicate IsDead(ts: Tokens, family: Id) {
    && (exists t :: t in ts && ts[t].family == family)
    && forall t :: t in ts && ts[t].family == family ==> ts[t].revoked
  }

  /** A row is never deleted, moved to another family or user, or unrevoked. */
  ghost predicate Endures(ts: Tokens, us: Tokens) {
    forall t :: t in ts ==> t in us && (us[t] == ts[t] || us[t] == ts[t].(revoked := true))
  }

  lemma EnduresStep(s: State, c: Step)
    requires Fresh(s, c)
    ensures Endures(s.tokens, Apply(s, c).tokens)
  {
  }

  lemma {:induction false} EnduresRun(s: State, cs: seq<Step>)
    requires IsRun(s, cs)
    ensures Endures(s.tokens, Run(s, cs).tokens)
    decreases |cs|
  {
    if cs != [] {
      EnduresStep(s, cs[0]);
      EnduresRun(Apply(s, cs[0]), cs[1..]);
    }
  }

  lemma DeadStep(s: State, c: Step, family: Id)
    requires Fresh(s, c) && IsDead(s.tokens, family)
    ensures IsDead(Apply(s, c).tokens, family)
  {
    EnduresStep(s, c);
    var ts := Apply(s, c).tokens;
    var t :| t in s.tokens && s.tokens[t].family == family;
    assert t in ts && ts[t].family == family;
  }

  lemma {:induction false} DeadRun(s: State, cs: seq<Step>, family: Id)
    requires IsRun(s, cs) && IsDead(s.tokens, family)
    ensures IsDead(Run(s, cs).tokens, family)
    decreases |cs|
  {
    if cs != [] {
      DeadStep(s, cs[0], family);
      DeadRun(Apply(s, cs[0]), cs[1..], family);
    }
  }

  /** The step shows token `id` to a handler, in a text that parses. */
  predicate Shows(c: Step, id: Id) {
    (c.Refresh? || c.Logout?) && c.shown.parsed == Some(id)
  }

  /** Showing a revoked token kills its family for good, whatever its expiry and hash and
      whatever happens later; shown to the refresh handler it also revokes everything its
      user holds. */
  lemma ReuseEndsFamily(s: State, c: Step, cs: seq<Step>, id: Id)
    requires Shows(c, id) && id in s.tokens && s.tokens[id].revoked
    requires Fresh(s, c) && IsRun(Apply(s, c), cs)
    ensures IsDead(Run(Apply(s, c), cs).tokens, s.tokens[id].family)
    ensures c.Refresh? ==> forall t :: t in s.tokens && s.tokens[t].user == s.tokens[id].user ==> !IsLive(Run(Apply(s, c), cs).tokens, t)
  {
    var family, u := s.tokens[id].family, Apply(s, c);
    assert id in u.tokens && u.tokens[id].family == family;
    assert IsDead(u.tokens, family);
    DeadRun(u, cs, family);
    EnduresRun(u, cs);
  }

  /** A step that uses up token `id`: it was accepted, so it is revoked from then on. */
  predicate UsesUp(s: State, c: Step, id: Id) {
    && Shows(c, id) && Check(s.tokens, c.shown, c.now).Genuine?
    && (c.Refresh? ==> MayLogin(s, s.tokens[id].user))
  }

  /** The whole story of a stolen token: once a token was rotated or logged out, showing it
      again at any later time leaves its family without an unrevoked token for ever, although
      the rotation had given the family a new one. */
  lemma ReplayEndsFamily(s: State, first: Step, between: seq<Step>, again: Step, after: seq<Step>, id: Id)
    requires UsesUp(s, first, id) && Fresh(s, first) && Shows(again, id)
    requires IsRun(Apply(s, first), between)
    requires Fresh(Run(Apply(s, first), between), again)
    requires IsRun(Apply(Run(Apply(s, first), between), again), after)
    ensures var t := Run(Apply(Run(Apply(s, first), between), again), after);
      IsDead(t.tokens, s.tokens[id].family)
  {
    var a := Apply(s, first);
    assert a.tokens[id].revoked && a.tokens[id].family == s.tokens[id].family;
    EnduresRun(a, between);
    ReuseEndsFamily(Run(a, between), again, after, id);
  }

  /** A successful refresh hands over: the shown token is revoked, the minted one is the
      family's live token. */
  lemma RefreshHandsOver(s: State, c: Step, id: Id)
    requires Inv(s) && Fresh(s, c) && c.Refresh? && UsesUp(s, c, id) && c.mint.Mint?
    ensures var ts := Apply(s, c).tokens;
      && !IsLive(ts, id) && IsLive(ts, c.mint.id) && ts[c.mint.id].user == s.tokens[id].user
      && (forall t :: IsLive(ts, t) && ts[t].family == s.tokens[id].family <==> t == c.mint.id)
      && forall t :: t in s.tokens && t != id ==> ts[t] == s.tokens[t]
  {
    InvStep(s, c);
  }

  /** Run one at a time, rotations are safe; two requests that both validate a token before
      either rotates it leave two live tokens in one family. */
  lemma RacingRefreshes(ts: Tokens, p: Presented, now: int, m: Mint, n: Mint)
    requires Check(ts, p, now).Genuine? && m.Mint? && n.Mint? && m.id != n.id && m.id !in ts && n.id !in ts
    ensures var c := Check(ts, p, now).claims;
      var us := Rotate(Rotate(ts, c, c.user, m), c, c.user, n);
      IsLive(us, m.id) && IsLive(us, n.id) && us[m.id].family == us[n.id].family && !OneLive(us)
  {
  }

  // ----- What each step does, and to whom

  /** The token is in the table, unrevoked and unexpired, is the text that was shown, and its
      user may log in. */
  predicate Works(s: State, shown: Presented, now: int) {
    && shown.parsed.Some? && IsLive(s.tokens, shown.parsed.value)
    && now <= s.tokens[shown.parsed.value].expires && s.tokens[shown.parsed.value].hash == shown.hash
    && MayLogin(s, s.tokens[shown.parsed.value].user)
  }

  /** A refresh gives a new token exactly for a token that works, in its family and for its user. */
  lemma RefreshMintsIff(s: State, c: Step)
    requires Fresh(s, c) && c.Refresh? && c.mint.Mint?
    ensures c.mint.id in Apply(s, c).tokens <==> Works(s, c.shown, c.now)
    ensures Works(s, c.shown, c.now) ==>
      var used := s.tokens[c.shown.parsed.value];
      Apply(s, c).tokens[c.mint.id] == Token(used.user, used.family, c.mint.hash, false, c.mint.expires)
  {
  }

  /** A login gives a new token in a family of its own exactly for an account that may log in;
      no other token changes. */
  lemma LoginMintsIff(s: State, c: Step)
    requires Fresh(s, c) && c.Login? && c.mint.Mint?
    ensures var u := Apply(s, c);
      && (c.mint.id in u.tokens <==> MayLogin(s, c.user))
      && (MayLogin(s, c.user) ==> u.tokens[c.mint.id] == Token(c.user, c.family, c.mint.hash, false, c.mint.expires))
      && (forall t :: t in s.tokens ==> t in u.tokens && u.tokens[t] == s.tokens[t])
  {
  }

  /** A logout with the family's token leaves the family dead, for good. */
  lemma {:induction false} LogoutEndsFamily(s: State, c: Step, cs: seq<Step>, id: Id)
    requires Inv(s) && c.Logout? && UsesUp(s, c, id) && IsRun(Apply(s, c), cs)
    ensures IsDead(Run(Apply(s, c), cs).tokens, s.tokens[id].family)
  {
    var u, family := Apply(s, c), s.tokens[id].family;
    assert id in u.tokens && u.tokens[id].family == family;
    assert IsLive(s.tokens, id);
    assert forall t :: t in u.tokens && u.tokens[t].family == family ==> u.tokens[t].revoked;
    DeadRun(u, cs, family);
  }

  /** A new account may log in; a locked one may not and has no token left; an unlocked one may
      again, with new tokens only. Nothing happens to other accounts. */
  lemma AccountSteps(s: State, user: Id)
    ensures MayLogin(Apply(s, Register(user)), user)
    ensures var l := Apply(s, Lock(user));
      && !MayLogin(l, user)
      && (MayLogin(s, user) ==> forall t :: t in s.tokens && s.tokens[t].user == user ==> t in l.tokens && l.tokens[t].revoked)
      && (forall u :: u != user ==> (MayLogin(l, u) <==> MayLogin(s, u)))
    ensures var l := Apply(s, Unlock(user));
      && (user in s.accounts ==> MayLogin(l, user)) && l.tokens == s.tokens
      && (forall u :: u != user ==> (MayLogin(l, u) <==> MayLogin(s, u)))
  {
  }

  /** Whom a step is about, if anyone it knows. */
  function Subject(s: State, c: Step): Option<Id> {
    match c
    case Refresh(shown, _, _) =>
      if shown.parsed.Some? && shown.parsed.value in s.tokens then Some(s.tokens[shown.parsed.value].user) else None
    case Logout(shown, _) =>
      if shown.parsed.Some? && shown.parsed.value in s.tokens then Some(s.tokens[shown.parsed.value].user) else None
    case _ => Some(c.user)
  }

  /** No step, reuse and locking included, touches a token of another user. */
  lemma OthersUntouched(s: State, c: Step, t: Id)
    requires Fresh(s, c) && OneUser(s.tokens) && t in s.tokens && Subject(s, c) != Some(s.tokens[t].user)
    ensures t in Apply(s, c).tokens && Apply(s, c).tokens[t] == s.tokens[t]
  {
  }
}
