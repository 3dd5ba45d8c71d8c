/** The account repository: a versioned table with two unique columns, read through a cache
    with three keys per account. */
module AccountCache {
  import opened Prelude

  type Id = string

  /** A stored row; an account held by a caller has the same fields. */
  datatype Account = Account(id: Id, email: string, google: string, role: string, status: string, violations: nat, version: nat)

  type Table = map<Id, Account>

  /** What a finder looks for. */
  datatype Probe = ById(id: Id) | ByEmail(email: string) | ByGoogle(google: string)

  // ----- Keys

  const ID_PREFIX := "account:id:"
  const EMAIL_PREFIX := "account:email:"
  const GOOGLE_PREFIX := "account:google_id:"

  function Key(p: Probe): string {
    match p
    case ById(id) => ID_PREFIX + id
    case ByEmail(email) => EMAIL_PREFIX + email
    case ByGoogle(google) => GOOGLE_PREFIX + google
  }

  /** No two probes share a key, within a family or across families. */
  lemma KeysDiffer(p: Probe, q: Probe)
    requires Key(p) == Key(q)
    ensures p == q
  {
    var k := Key(p);
    assert k[8] == match p { case ById(_) => 'i' case ByEmail(_) => 'e' case ByGoogle(_) => 'g' };
    assert k[8] == match q { case ById(_) => 'i' case ByEmail(_) => 'e' case ByGoogle(_) => 'g' };
    match p {
      case ById(id) => assert k[|ID_PREFIX|..] == id && k[|ID_PREFIX|..] == q.id;
      case ByEmail(email) => assert k[|EMAIL_PREFIX|..] == email && k[|EMAIL_PREFIX|..] == q.email;
      case ByGoogle(google) => assert k[|GOOGLE_PREFIX|..] == google && k[|GOOGLE_PREFIX|..] == q.google;
    }
  }

  // ----- The table

  predicate Fits(a: Account, p: Probe) {
    match p
    case ById(id) => a.id == id
    case ByEmail(email) => a.email == email
    case ByGoogle(google) => a.google == google
  }

  ghost predicate Unique(t: Table) {
    && (forall k :: k in t ==> t[k].id == k)
    && (forall j, k :: j in t && k in t && t[j].email == t[k].email ==> j == k)
    && (forall j, k :: j in t && k in t && t[j].google == t[k].google ==> j == k)
  }

  ghost function Lookup(t: Table, p: Probe): Option<Account> {
    if exists k :: k in t && Fits(t[k], p) then
      var k :| k in t && Fits(t[k], p); Some(t[k])
    else None
  }

  lemma LookupIs(t: Table, p: Probe, k: Id)
    requires Unique(t) && k in t && Fits(t[k], p)
    ensures Lookup(t, p) == Some(t[k])
  {
  }

  /** Another row has the email or the Google id of `a`. */
  predicate Clashes(t: Table, a: Account) {
    exists k :: k in t && k != a.id && (t[k].email == a.email || t[k].google == a.google)
  }

  /** `toUserAccountModel` raises the version. */
  function Model(a: Account): Account {
    a.(version := a.version + 1)
  }

  /** GORM's `Updates` on a struct leaves columns alone whose new value is zero. */
  function Merge(stored: Account, a: Account): Account {
    Account(stored.id,
            if a.email == "" then stored.email else a.email,
            if a.google == "" then stored.google else a.google,
            if a.role == "" then stored.role else a.role,
            if a.status == "" then stored.status else a.status,
            if a.violations == 0 then stored.violations else a.violations,
            if a.version == 0 then stored.version else a.version)
  }

  predicate Matches(t: Table, a: Account) {
    a.id in t && t[a.id].version == a.version
  }

  datatype Op = Save(account: Account) | Update(account: Account) | Find(probe: Probe) | Expire(keys: set<string>)

  datatype Out = Done | Duplicate | Conflict | Found(account: Account) | NotFound

  function FoundOr(o: Option<Account>): Out {
    match o
    case Some(a) => Found(a)
    case None => NotFound
  }

  /** The operations on the table alone. */
  ghost function Plain(t: Table, op: Op): (Table, Out) {
    match op
    case Save(a) =>
      if a.id in t || Clashes(t, Model(a)) then (t, Duplicate) else (t[a.id := Model(a)], Done)
    case Update(a) =>
      if !Matches(t, a) then (t, Conflict)
      else
        var row := Merge(t[a.id], Model(a));
        if Clashes(t, row) then (t, Duplicate) else (t[a.id := row], Done)
    case Find(p) => (t, FoundOr(Lookup(t, p)))
    case Expire(_) => (t, Done)
  }

  // ----- The table behind its cache

  datatype Store = Store(table: Table, cache: map<string, Account>)

  const EMPTY := Store(map[], map[])

  function KeysOf(a: Account): set<string> {
    {Key(ById(a.id)), Key(ByEmail(a.email)), Key(ByGoogle(a.google))}
  }

  ghost function Cached(s: Store, op: Op): (Store, Out) {
    match op
    case Find(p) =>
      if Key(p) in s.cache then (s, Found(s.cache[Key(p)]))
      else
        var o := Lookup(s.table, p);
        (if o.Some? then s.(cache := s.cache[Key(p) := o.value]) else s, FoundOr(o))
    case Expire(keys) => (s.(cache := s.cache - keys), Done)
    case _ =>
      var (t, out) := Plain(s.table, op);
      (if out == Done then Store(t, s.cache - KeysOf(op.account)) else s, out)
  }

  class AccountRepository {
    var table: Table
    var cache: map<string, Account>

    constructor ()
      ensures State() == EMPTY
    {
      table, cache := map[], map[];
    }

    function State(): Store
      reads this
    {
      Store(table, cache)
    }

    method Evict(model: Account)
      modifies this`cache
      ensures cache == old(cache) - KeysOf(model)
    {
      cache := cache - {Key(ById(model.id))};
      cache := cache - {Key(ByEmail(model.email))};
      cache := cache - {Key(ByGoogle(model.google))};
    }

    method Save(account: Account) returns (out: Out)
      modifies this
      ensures (State(), out) == Cached(old(State()), Op.Save(account))
    {
      var model := Model(account);
      if model.id in table || Clashes(table, model) {
        return Duplicate;
      }
      table := table[model.id := model];
      Evict(model);
      out := Done;
    }

    method Update(account: Account) returns (out: Out)
      modifies this
      ensures (State(), out) == Cached(old(State()), Op.Update(account))
    {
      var model := Model(account);
      if model.id !in table || table[model.id].version != model.version - 1 {
        return Conflict;
      }
      var row := Merge(table[model.id], model);
      if Clashes(table, row) {
        return Duplicate;
      }
      table := table[model.id := row];
      Evict(model);
      out := Done;
    }

    /** `FindByID`, `FindByEmail` and `FindByGoogleID`, which differ in the key and the column.
        Only rows that exist are cached. */
    method FindBy(probe: Probe) returns (out: Out)
      requires Unique(table)
      modifies this`cache
      ensures (State(), out) == Cached(old(State()), Find(probe))
    {
      var key := Key(probe);
      if key in cache {
        return Found(cache[key]);
      }
      if k :| k in table && Fits(table[k], probe) {
        LookupIs(table, probe, k);
        cache := cache[key := table[k]];
        return Found(table[k]);
      }
      out := NotFound;
    }
  }

  // ----- Coherence

  /** Every entry is under the key of some probe and is what the table has for it. */
  ghost predicate Coherent(s: Store) {
    forall k :: k in s.cache ==> Backed(s, k)
  }

  ghost predicate Backed(s: Store, k: string)
    requires k in s.cache
  {
    exists p :: k == Key(p) && Stands(s.table, p, s.cache[k])
  }

  /** `a` is the row the table has for `p`. */
  ghost predicate Stands(t: Table, p: Probe, a: Account) {
    a.id in t && t[a.id] == a && Fits(a, p)
  }

  lemma HitIsLookup(s: Store, p: Probe)
    requires Unique(s.table) && Coherent(s) && Key(p) in s.cache
    ensures Lookup(s.table, p) == Some(s.cache[Key(p)])
  {
    assert Backed(s, Key(p));
    var q :| Key(p) == Key(q) && Stands(s.table, q, s.cache[Key(p)]);
    KeysDiffer(p, q);
    LookupIs(s.table, p, s.cache[Key(p)].id);
  }

  lemma UniqueStep(t: Table, op: Op)
    requires Unique(t)
    ensures Unique(Plain(t, op).0)
  {
  }

  /** A finder's answer does not depend on the cache, and what it caches is backed. */
  lemma FindStep(s: Store, p: Probe)
    requires Unique(s.table) && Coherent(s)
    ensures var (t, out) := Cached(s, Find(p));
      t.table == s.table && Coherent(t) && out == FoundOr(Lookup(s.table, p))
  {
    var t := Cached(s, Find(p)).0;
    if Key(p) in s.cache {
      HitIsLookup(s, p);
    } else {
      var o := Lookup(s.table, p);
      forall k | k in t.cache ensures Backed(t, k) {
        if k == Key(p) {
          assert Stands(t.table, p, t.cache[k]);
        } else {
          assert Backed(s, k);
          var q :| k == Key(q) && Stands(s.table, q, s.cache[k]);
          assert Stands(t.table, q, t.cache[k]);
        }
      }
    }
  }

  lemma SaveStep(s: Store, a: Account)
    requires Unique(s.table) && Coherent(s)
    ensures Coherent(Cached(s, Save(a)).0)
  {
    var t := Cached(s, Save(a)).0;
    forall k | k in t.cache ensures Backed(t, k) {
      assert Backed(s, k);
      var q :| k == Key(q) && Stands(s.table, q, s.cache[k]);
      assert Stands(t.table, q, t.cache[k]);
    }
  }

  lemma ExpireStep(s: Store, keys: set<string>)
    requires Coherent(s)
    ensures Coherent(Cached(s, Expire(keys)).0)
  {
    var t := Cached(s, Expire(keys)).0;
    forall k | k in t.cache ensures Backed(t, k) {
      assert Backed(s, k);
      var q :| k == Key(q) && Stands(s.table, q, s.cache[k]);
      assert Stands(t.table, q, t.cache[k]);
    }
  }

  /** The entries of the old row that an update does not reach. */
  predicate Misses(s: Store, a: Account) {
    a.id in s.table &&
    var row := s.table[a.id];
    || (row.email != a.email && Key(ByEmail(row.email)) in s.cache)
    || (row.google != a.google && Key(ByGoogle(row.google)) in s.cache)
  }

  /** Every entry of the old row that is not missed is evicted. */
  lemma Reached(s: Store, a: Account, q: Probe)
    requires Key(q) in s.cache && Stands(s.table, q, s.cache[Key(q)]) && s.cache[Key(q)].id == a.id && !Misses(s, a)
    ensures Key(q) in KeysOf(a)
  {
  }

  lemma UpdateKeeps(s: Store, a: Account)
    requires Unique(s.table) && Coherent(s) && Cached(s, Update(a)).1 == Done && !Misses(s, a)
    ensures Coherent(Cached(s, Update(a)).0)
  {
    var t := Cached(s, Update(a)).0;
    assert t.cache == s.cache - KeysOf(a);
    var row := t.table[a.id];
    assert t.table == s.table[a.id := row];
    forall k | k in t.cache ensures Backed(t, k) {
      assert Backed(s, k);
      var q :| k == Key(q) && Stands(s.table, q, s.cache[k]);
      if s.cache[k].id == a.id {
        Reached(s, a, q);
      }
      assert Stands(t.table, q, t.cache[k]);
    }
  }

  lemma UpdateBreaks(s: Store, a: Account, p: Probe)
    requires Unique(s.table) && Coherent(s) && Cached(s, Update(a)).1 == Done
    requires p == ByEmail(s.table[a.id].email) || p == ByGoogle(s.table[a.id].google)
    requires Key(p) in s.cache && Key(p) !in KeysOf(a)
    ensures !Coherent(Cached(s, Update(a)).0)
  {
    var t := Cached(s, Update(a)).0;
    HitIsLookup(s, p);
    LookupIs(s.table, p, a.id);
    assert t.cache[Key(p)] == s.table[a.id] && t.table[a.id].version == a.version + 1;
    assert Key(p) in t.cache && !Backed(t, Key(p));
  }

  /** A successful update leaves a coherent cache exactly when the account kept the stored
      email and Google id, or the entry under the old one is not cached. */
  lemma UpdateIsCoherentIff(s: Store, a: Account)
    requires Unique(s.table) && Coherent(s) && Cached(s, Update(a)).1 == Done
    ensures Coherent(Cached(s, Update(a)).0) <==> !Misses(s, a)
  {
    if Misses(s, a) {
      var row := s.table[a.id];
      var p := if row.email != a.email && Key(ByEmail(row.email)) in s.cache then ByEmail(row.email) else ByGoogle(row.google);
      if Key(p) in KeysOf(a) {
        OtherKey(a, p);
      }
      UpdateBreaks(s, a, p);
    } else {
      UpdateKeeps(s, a);
    }
  }

  lemma OtherKey(a: Account, p: Probe)
    requires Key(p) in KeysOf(a)
    ensures Fits(a, p)
  {
    var q :| (q == ById(a.id) || q == ByEmail(a.email) || q == ByGoogle(a.google)) && Key(q) == Key(p);
    KeysDiffer(p, q);
  }

  // ----- Runs

  ghost function PlainRun(t: Table, ops: seq<Op>): (Table, seq<Out>)
    decreases |ops|
  {
    if ops == [] then (t, [])
    else
      var (u, out) := Plain(t, ops[0]);
      var (v, outs) := PlainRun(u, ops[1..]);
      (v, [out] + outs)
  }

  ghost function CachedRun(s: Store, ops: seq<Op>): (Store, seq<Out>)
    decreases |ops|
  {
    if ops == [] then (s, [])
    else
      var (u, out) := Cached(s, ops[0]);
      var (v, outs) := CachedRun(u, ops[1..]);
      (v, [out] + outs)
  }

  predicate SameOwner(a: Account, b: Account) {
    a.id == b.id && a.email == b.email && a.google == b.google
  }

  /** Accounts that callers have in hand: those they saved and those a finder gave them. */
  function Learn(known: set<Account>, op: Op, out: Out): set<Account> {
    if out.Found? then known + {out.account}
    else if op.Save? && out == Done then known + {op.account}
    else known
  }

  /** Callers update only accounts they have in hand, and an account in hand never changes its
      email or Google id: the aggregate has no way to set them. Callers see only what the
      cached repository answers. */
  ghost predicate Honest(s: Store, known: set<Account>, ops: seq<Op>)
    decreases |ops|
  {
    ops == [] ||
    var (u, out) := Cached(s, ops[0]);
    && (ops[0].Update? ==> exists a :: a in known && SameOwner(a, ops[0].account))
    && Honest(u, Learn(known, ops[0], out), ops[1..])
  }

  /** What callers know is still true of the table, up to role, status, violations and version. */
  ghost predicate StillTrue(t: Table, known: set<Account>) {
    forall a :: a in known ==> a.id in t && SameOwner(a, t[a.id])
  }

  lemma OwnersStay(t: Table, known: set<Account>, op: Op)
    requires Unique(t) && StillTrue(t, known)
    requires op.Update? ==> exists a :: a in known && SameOwner(a, op.account)
    ensures var (u, out) := Plain(t, op);
      StillTrue(u, Learn(known, op, out))
  {
  }

  lemma CachedStep(s: Store, known: set<Account>, op: Op)
    requires Unique(s.table) && Coherent(s) && StillTrue(s.table, known)
    requires op.Update? ==> exists a :: a in known && SameOwner(a, op.account)
    ensures var (t, out) := Cached(s, op);
      (t.table, out) == Plain(s.table, op) && Coherent(t)
  {
    match op
    case Save(a) => SaveStep(s, a);
    case Update(a) => if Cached(s, op).1 == Done { UpdateKeeps(s, a); }
    case Find(p) => FindStep(s, p);
    case Expire(keys) => ExpireStep(s, keys);
  }

  /** The cache is invisible: whatever expires whenever, every result of every run is the one
      the table alone would give. */
  lemma {:induction false} CacheIsInvisible(s: Store, known: set<Account>, ops: seq<Op>)
    requires Unique(s.table) && Coherent(s) && StillTrue(s.table, known) && Honest(s, known, ops)
    ensures var (t, outs) := CachedRun(s, ops);
      (t.table, outs) == PlainRun(s.table, ops) && Coherent(t)
    decreases |ops|
  {
    if ops != [] {
      var (u, out) := Cached(s, ops[0]);
      CachedStep(s, known, ops[0]);
      UniqueStep(s.table, ops[0]);
      OwnersStay(s.table, known, ops[0]);
      CacheIsInvisible(u, Learn(known, ops[0], out), ops[1..]);
    }
  }

  /** Once renamed, nobody has the old email. */
  lemma Renamed(t: Table, a: Account, u: Table)
    requires Unique(t) && Plain(t, Update(a)) == (u, Done) && a.email != "" && a.email != t[a.id].email
    ensures Lookup(u, ByEmail(t[a.id].email)) == None
  {
    assert forall k :: k in u ==> u[k].email != t[a.id].email;
  }

  /** After an update that changes a cached email, a caller who asks for the old one still
      gets the old row, although the table has nobody with it. */
  lemma StaleAnswer(s: Store, a: Account)
    requires Unique(s.table) && Coherent(s) && Cached(s, Update(a)).1 == Done
    requires a.email != "" && a.email != s.table[a.id].email && Key(ByEmail(s.table[a.id].email)) in s.cache
    ensures var p, t := ByEmail(s.table[a.id].email), Cached(s, Update(a)).0;
      Cached(t, Find(p)).1 == Found(s.table[a.id]) && Plain(t.table, Find(p)).1 == NotFound
  {
    var p, t := ByEmail(s.table[a.id].email), Cached(s, Update(a)).0;
    if Key(p) in KeysOf(a) {
      OtherKey(a, p);
    }
    HitIsLookup(s, p);
    LookupIs(s.table, p, a.id);
    Renamed(s.table, a, t.table);
  }

  /** Such a state arises from a Save and a FindByEmail. */
  lemma StaleEmail()
    ensures var a := Account("1", "old@x.org", "g", "CLIENT", "ACTIVE", 0, 1);
      var p := ByEmail("old@x.org");
      var s := Cached(Cached(EMPTY, Save(a)).0, Find(p)).0;
      var t := Cached(s, Update(a.(email := "new@x.org", version := 2))).0;
      Cached(t, Find(p)).1 == Found(a.(version := 2)) && Plain(t.table, Find(p)).1 == NotFound
  {
    var a := Account("1", "old@x.org", "g", "CLIENT", "ACTIVE", 0, 1);
    var p := ByEmail("old@x.org");
    var s1 := Cached(EMPTY, Save(a)).0;
    assert s1.table == map["1" := Model(a)] && s1.cache == map[];
    LookupIs(s1.table, p, "1");
    FindStep(s1, p);
    var s2 := Cached(s1, Find(p)).0;
    assert Key(p) in s2.cache;
    StaleAnswer(s2, a.(email := "new@x.org", version := 2));
  }

  // ----- Versions

  lemma VersionStep(t: Table, op: Op, id: Id)
    requires id in t
    ensures var u := Plain(t, op).0;
      id in u && u[id].version >= t[id].version
  {
  }

  /** Versions of a row never fall. */
  lemma {:induction false} VersionsRise(t: Table, ops: seq<Op>, id: Id)
    requires id in t
    ensures var u := PlainRun(t, ops).0;
      id in u && u[id].version >= t[id].version
    decreases |ops|
  {
    if ops != [] {
      VersionStep(t, ops[0], id);
      VersionsRise(Plain(t, ops[0]).0, ops[1..], id);
    }
  }

  /** No lost update: of two updates from the same version at most one is ever accepted,
      however much happens in between. */
  lemma NoLostUpdate(t: Table, a: Account, ops: seq<Op>, b: Account)
    requires Plain(t, Update(a)).1 == Done && b.id == a.id && b.version == a.version
    ensures Plain(PlainRun(Plain(t, Update(a)).0, ops).0, Update(b)).1 == Conflict
  {
    VersionsRise(Plain(t, Update(a)).0, ops, a.id);
  }

  // ----- What is written is read

  function OrOld(given: string, stored: string): string {
    if given != "" then given else stored
  }

  /** A new account is stored exactly when nobody has its id, its email or its Google id. */
  lemma SaveIff(t: Table, a: Account)
    requires Unique(t)
    ensures Plain(t, Save(a)).1 == Done <==>
      Lookup(t, ById(a.id)) == None && Lookup(t, ByEmail(a.email)) == None && Lookup(t, ByGoogle(a.google)) == None
    ensures Plain(t, Save(a)).1 != Done ==> Plain(t, Save(a)) == (t, Duplicate)
  {
    assert forall k :: k in t ==> t[k].id == k;
    if a.id in t {
      assert Fits(t[a.id], ById(a.id));
    }
    forall k | k in t && t[k].email == a.email ensures Lookup(t, ByEmail(a.email)).Some? {
      assert Fits(t[k], ByEmail(a.email));
    }
    forall k | k in t && t[k].google == a.google ensures Lookup(t, ByGoogle(a.google)).Some? {
      assert Fits(t[k], ByGoogle(a.google));
    }
  }

  /** And then it is found as it was given, at the next version; no other row changed. */
  lemma SaveIsRead(t: Table, a: Account, u: Table)
    requires Unique(t) && Plain(t, Save(a)) == (u, Done)
    ensures var r := Some(a.(version := a.version + 1));
      Lookup(u, ById(a.id)) == r && Lookup(u, ByEmail(a.email)) == r && Lookup(u, ByGoogle(a.google)) == r
    ensures forall k :: k in t ==> k in u && u[k] == t[k]
    ensures u.Keys == t.Keys + {a.id}
  {
    UniqueStep(t, Save(a));
    LookupIs(u, ById(a.id), a.id);
    LookupIs(u, ByEmail(a.email), a.id);
    LookupIs(u, ByGoogle(a.google), a.id);
  }

  ghost predicate SomebodyElse(t: Table, p: Probe, id: Id) {
    Lookup(t, p).Some? && Lookup(t, p).value.id != id
  }

  /** An update is in conflict exactly when the stored version is not the one it was read at,
      and otherwise refused exactly when another account has its email or Google id. */
  lemma UpdateIff(t: Table, a: Account)
    requires Unique(t)
    ensures var out, stored := Plain(t, Update(a)).1, Lookup(t, ById(a.id));
      && (out == Conflict <==> stored.None? || stored.value.version != a.version)
      && (out == Duplicate <==>
            && stored.Some? && stored.value.version == a.version
            && (SomebodyElse(t, ByEmail(OrOld(a.email, stored.value.email)), a.id)
                || SomebodyElse(t, ByGoogle(OrOld(a.google, stored.value.google)), a.id)))
      && (out != Done ==> Plain(t, Update(a)).0 == t)
  {
    if a.id in t {
      var stored := t[a.id];
      LookupIs(t, ById(a.id), a.id);
      forall k | k in t && t[k].email == OrOld(a.email, stored.email) ensures Lookup(t, ByEmail(OrOld(a.email, stored.email))) == Some(t[k]) {
        LookupIs(t, ByEmail(t[k].email), k);
      }
      forall k | k in t && t[k].google == OrOld(a.google, stored.google) ensures Lookup(t, ByGoogle(OrOld(a.google, stored.google))) == Some(t[k]) {
        LookupIs(t, ByGoogle(t[k].google), k);
      }
    }
  }

  /** After an accepted update the account is found with every field as it was given, except
      that empty texts and a count of 0 leave what was stored, at the next version; no other
      row changed. */
  lemma UpdateIsRead(t: Table, a: Account, u: Table)
    requires Unique(t) && Plain(t, Update(a)) == (u, Done)
    ensures a.id in t && Lookup(u, ById(a.id)).Some?
    ensures var stored, r := t[a.id], Lookup(u, ById(a.id)).value;
      && r.id == a.id && r.version == a.version + 1
      && r.role == OrOld(a.role, stored.role) && r.status == OrOld(a.status, stored.status)
      && r.email == OrOld(a.email, stored.email) && r.google == OrOld(a.google, stored.google)
      && r.violations == (if a.violations > 0 then a.violations else stored.violations)
      && Lookup(u, ByEmail(r.email)) == Some(r) && Lookup(u, ByGoogle(r.google)) == Some(r)
    ensures u.Keys == t.Keys && forall k :: k in t && k != a.id ==> u[k] == t[k]
  {
    UniqueStep(t, Update(a));
    LookupIs(u, ById(a.id), a.id);
    LookupIs(u, ByEmail(u[a.id].email), a.id);
    LookupIs(u, ByGoogle(u[a.id].google), a.id);
  }

  /** The same through the cache: who locks an account finds it locked, at once. */
  lemma {:induction false} CachedUpdateIsRead(s: Store, a: Account, p: Probe)
    requires Unique(s.table) && Coherent(s) && Cached(s, Update(a)).1 == Done && !Misses(s, a)
    ensures var u := Cached(s, Update(a)).0;
      Cached(u, Find(p)).1 == FoundOr(Lookup(Plain(s.table, Update(a)).0, p))
  {
    UpdateKeeps(s, a);
    UniqueStep(s.table, Update(a));
    FindStep(Cached(s, Update(a)).0, p);
  }

  /** What was found once is answered from the cache until it expires or is evicted. */
  lemma FoundIsCached(s: Store, p: Probe)
    requires Cached(s, Find(p)).1.Found?
    ensures var (u, out) := Cached(s, Find(p));
      Key(p) in u.cache && u.cache[Key(p)] == out.account && Cached(u, Find(p)) == (u, out)
  {
  }
}
